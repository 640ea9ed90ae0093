# Verified models of SceneScape's concurrent and algorithmic cores

This project models seven parts of the repository in Dafny and proves what each is for: statements about every run of
a protocol, every input of an algorithm, or every pose. `dafny verify dfyconfig.toml` checks all of it.

**Two paced LiDAR/camera streams** (`sample_data/lidar_intersection/lidar_publisher.py`). `PacedStreams` is a state
machine with one action per region that a publisher thread runs under a condition's lock: the pace gate, entering the
rendezvous (which may leave at once), waking, timing out, recording a frame, finishing. `PacedStreamsInvariant` has an
inductive invariant over all interleavings, for every lag tolerance of at least 1; `PacedStreamsTheorems` draws the
guarantees from it, `PacedStreamsMissed` says exactly when a timeout leaves the streams able to block each other, and
`PacedStreamsLimits` has runs that show it. `PacedStreamsStamps` traces every timestamp to the departure that set it.
`LidarPublisher` has the regions as methods of an object, proved equal to the functions the state machine uses. Two
places disagree with the code and the code is followed: the comment at lines 531-534 says that with tolerance 2 the
streams never meet, but without a timeout they always do (`NoDeadlock`, `QuietRunSharesStamps`) and after a single
timeout they can get stuck at any tolerance, including 1 (`SticksExactlyWhenDoomed`, `OneTimeoutCanStick`); and
`docs/user-guide/how-to-guides/run-lidar-intersection-demo.md` gives 2 as the default tolerance where the code has 1.

**Calibration reloads with generations** (`positioning/src/positioning_service.py`,
`positioning/src/positioning/ptz_resolver.py`). `CalibrationReload` interleaves MQTT callbacks, changes in the Manager
and the single refresher, whose `get` runs outside the lock. `PositioningService` has the queue and the resolver as
objects. An invalidated source keeps its calibration and is marked pending, as in the resolver's code.

**ReID scoring and threshold calibration** (`tools/reid_evaluation/evaluate.py`). Scores and thresholds are the
positions of finite doubles in their order, so that `nextafter` is the next integer. The sweep over candidates is proved
to choose among all valid thresholds, and `ThresholdTieBreak` says when exactly it misses an L2 tie; gallery ranking and
calibration are proved independent of the manifest's order. `GalleryMatches` and `ThresholdCounts` say the same results
in terms of cameras, tracks, scores and plain counts.

**Drone camera geometry and matrix-to-quaternion** (`sample_data/drone_sim/drone_cam_sim.py`,
`mapping/src/model_interface.py`). Exact algebra over the reals; an angle is a cosine and a sine, and the square root is
any function that is one. The two routines break ties differently, and `RoutinesEqualExactlyWhen` says when that shows.
`Rotations`, `Quaternions` and `UnitQuaternions` are shared by both routines; `CameraAxes` says which way angles turn.

**Cluster tracking and DBSCAN parameters** (`cluster_analytics/src/`). The update loop refines a recursive greedy
matcher; distances are compared by their squares, and `ClusterDistances` gives the moves in coordinates. DBSCAN is an
oracle that labels every point or raises. The code takes no lock between an analysis's parameter lookups and its tracker
update; `OverlapKeepsExactlyWhen` says which changes in between do harm.

**AprilTag marker replacement** (`autocalibration/src/`). Every REST call is answered, refused without effect, or
carried out with its reply lost; which of these happens is an arbitrary function of the call's number. The claim that a
failed save leaves `map_processed` alone is not quite true of the code: when only the reply to the last call is lost,
the save raises with the map marked processed. `SaveToDatabase` states exactly this and `SaveWithLastReplyLost` gives
the input.

**Calibration locks** (`autocalibration/src/auto_camera_calibration_context.py`). Requests and background tasks
interleave and fail at any point. Two things the code does not guarantee are shown by runs: two camera requests can both
pass the pre-check, and "calibrating" can overwrite a finished result; when exactly the latter happens is proved too.

## Model

| member | source | states |
|---|---|---|
| PacedStreamsInvariant.StepKeeps | sample_data/lidar_intersection/lidar_publisher.py:126-167 | Each locked region keeps the inductive invariant on counts, flags, hold, slots and table, whichever thread runs it; a timeout keeps all but the part about quiet runs |
| PacedStreamsInvariant.RunKeeps | sample_data/lidar_intersection/lidar_publisher.py:542-577 | The invariant holds after every interleaving, for every tolerance of at least 1 |
| PacedStreamsTheorems.StuckMeansMissed | sample_data/lidar_intersection/lidar_publisher.py:558-577 | Both streams can be blocked only when one waits for an index whose message the other has taken out alone; gate and start-up hold alone never block both |
| PacedStreamsTheorems.NoDeadlock | sample_data/lidar_intersection/lidar_publisher.py:126-167 | While no rendezvous timeout has fired and not both streams are finished, some unfinished stream is not blocked by the other |
| PacedStreamsTheorems.TimeoutResolves | sample_data/lidar_intersection/lidar_publisher.py:146-149 | In every stuck state some stream's rendezvous timeout can still fire |
| PacedStreamsMissed.StuckMeansDoomed | sample_data/lidar_intersection/lidar_publisher.py:558-577 | Whenever both streams are blocked, both are running and some index was taken alone by one that the other has still to come to |
| PacedStreamsMissed.OnlyTimeoutsDoom | sample_data/lidar_intersection/lidar_publisher.py:126-167 | Only a timeout can put a missed meeting ahead of two running streams |
| PacedStreamsMissed.TimeoutDoomsExactlyWhen | sample_data/lidar_intersection/lidar_publisher.py:146-149 | In a state with no missed meeting ahead, a timeout makes one if and only if the sibling is running and has still to come to that index |
| PacedStreamsMissed.WayToStick | sample_data/lidar_intersection/lidar_publisher.py:542-577 | From any state with such an index ahead, going on without timeouts leads to a state in which both are blocked |
| PacedStreamsMissed.SticksExactlyWhenDoomed | sample_data/lidar_intersection/lidar_publisher.py:126-167 | For every tolerance and after any run, timeouts included: without a further timeout the streams can block each other if and only if both are running and a meeting still to come is missed already |
| PacedStreamsTheorems.NoLostWakeUp | sample_data/lidar_intersection/lidar_publisher.py:542-549 | A stream asleep in the rendezvous with a reason to leave is about to be notified, and the notification wakes it |
| PacedStreamsTheorems.GateAligns | sample_data/lidar_intersection/lidar_publisher.py:558-577 | Past the gate together the indices differ by less than the tolerance; a count leads an unfinished sibling's by at most the tolerance; no camera frame passes before LiDAR's first |
| PacedStreamsTheorems.ToleranceOneStaysAligned | sample_data/lidar_intersection/lidar_publisher.py:531-535 | With tolerance 1 no timeout ever desynchronises: past the gate together means the same index |
| PacedStreamsTheorems.MeetingSharesStamp | sample_data/lidar_intersection/lidar_publisher.py:151-158 | Messages of one index that were ever in one slot leave with the same timestamp, whatever timed out elsewhere |
| PacedStreamsTheorems.QuietRunSharesStamps | sample_data/lidar_intersection/lidar_publisher.py:133-167 | Without a timeout every index both streams take through the rendezvous carries one stamp |
| PacedStreamsStamps.LeavesWithStamp | sample_data/lidar_intersection/lidar_publisher.py:151-162 | After every run, a message that leaves carries the stamp its slot already has, and the time of leaving if it has none; log and slot get the same |
| PacedStreamsStamps.StampsAreDepartureTimes | sample_data/lidar_intersection/lidar_publisher.py:151-162 | Over every run each stamp is the time at which some message of its index left the rendezvous |
| PacedStreamsTheorems.OwnMessageComesBack | sample_data/lidar_intersection/lidar_publisher.py:160-162 | A stream that wakes or times out leaves with the message it brought, stamped for its index |
| PacedStreamsTheorems.OwnMessagePassesThrough | sample_data/lidar_intersection/lidar_publisher.py:133-162 | The same for a stream that enters and leaves at once |
| PacedStreamsTheorems.TableIsExact | sample_data/lidar_intersection/lidar_publisher.py:163-166 | Up to tolerance 51, and at any tolerance without timeouts, the table has an entry for an index exactly while a stream is inside the rendezvous there, and it is that stream's slot |
| PacedStreamsTheorems.TableIsSmall | sample_data/lidar_intersection/lidar_publisher.py:163-166 | The table has at most two entries, and at most one with tolerance 1 |
| PacedStreamsTheorems.FramesAreCounted | sample_data/lidar_intersection/lidar_publisher.py:621-690 | Over every run a stream's index is the number of frames it recorded, whatever it failed to parse, and its loop is over if and only if a closed gate, the pipeline or an exception ended it |
| PacedStreamsLimits.OneTimeoutCanStick | sample_data/lidar_intersection/lidar_publisher.py:531-535 | For every tolerance a run with one timeout blocks both streams until another fires; at tolerance 1 one of them waits at its gate |
| PacedStreamsLimits.SweepIsSafeUpTo51 | sample_data/lidar_intersection/lidar_publisher.py:165-166 | The 50-frame sweep never drops a slot in use if and only if the tolerance is at most 51 |
| LidarPublisher.Publisher.constructor | sample_data/lidar_intersection/lidar_publisher.py:526-535 | The initial shared state, with a configured tolerance below 1 raised to 1 |
| LidarPublisher.Publisher.CheckPace | sample_data/lidar_intersection/lidar_publisher.py:565-577 | One look at the gate passes exactly when the gate is open, and stops only when it is closed and the pipeline has exited |
| LidarPublisher.Publisher.ReleaseCamera | sample_data/lidar_intersection/lidar_publisher.py:645-648 | LiDAR's first frame ends the start-up hold and changes nothing else |
| LidarPublisher.Publisher.RecordFrame | sample_data/lidar_intersection/lidar_publisher.py:552-555 | Recording changes that stream's count alone |
| LidarPublisher.Publisher.MarkFinished | sample_data/lidar_intersection/lidar_publisher.py:542-546 | Finishing raises that stream's flag alone |
| LidarPublisher.Publisher.EnterRendezvous | sample_data/lidar_intersection/lidar_publisher.py:133-150 | Entering is the state machine's put, followed in the same region by leaving if there is nothing to wait for; what leaves is the own message with the slot's stamp, or the present time if it has none |
| LidarPublisher.Publisher.LeaveIfReady | sample_data/lidar_intersection/lidar_publisher.py:138-167 | A turn of the wait loop leaves exactly when allowed or expired, returning the own message with the slot's stamp, or the present time if it had none |
| LidarPublisher.Publisher.StampSlot | sample_data/lidar_intersection/lidar_publisher.py:151-158 | The first leaver's time becomes the slot's stamp and goes into every waiting message; a stamp once chosen stays |
| LidarPublisher.Publisher.Sweep | sample_data/lidar_intersection/lidar_publisher.py:165-166 | The loop removes exactly the entries more than 50 behind |
| CalibrationReloadTheorems.RunKeeps | positioning/src/positioning_service.py:167-217 | The invariant on queue, pending set, refresher and generations holds after every interleaving of callbacks, Manager changes and refresher steps |
| CalibrationReloadTheorems.NoLostReload | positioning/src/positioning_service.py:167-217 | A source whose generation is newer than its last captured one is queued, with the refresher before its capture, or still inside its callback |
| CalibrationReloadTheorems.Freshness | positioning/src/positioning_service.py:183-198 | A source that is not pending holds the result of a load captured at its present generation; once all changes are announced its calibration is the Manager's |
| CalibrationReloadTheorems.QuiescentMeansSettled | positioning/src/positioning_service.py:200-217 | When nothing is queued or in flight only a transport error can have left a source pending |
| CalibrationReloadTheorems.QueueNeverOverflows | positioning/src/positioning_service.py:176-181 | `put_nowait` never finds the bounded queue full, although `get` runs outside the lock |
| CalibrationReloadTheorems.ContinuityMeansSameCalibration | positioning/src/positioning/ptz_resolver.py:143-171 | Over any stretch of a run in which motion continuity was never dropped, the calibration in force is the same at its end as at its start |
| CalibrationReloadTheorems.EntryChanges | positioning/src/positioning/ptz_resolver.py:143-193 | In every step an invalidation raises the generation and marks the source, keeping calibration and continuity; only the end of a load at the present generation replaces the calibration, dropping continuity exactly if it differs |
| CalibrationReloadTheorems.InvalidationKeepsCalibration | positioning/src/positioning_service.py:167-198 | Over any stretch the generation counts the invalidations of the source, and calibration and continuity stay until a load of it ends at its present generation |
| CalibrationReloadTheorems.RefreshRecoversSource | positioning/src/positioning_service.py:183-217 | A full refresh that begins after any run and comes to its end brings a source to the Manager's calibration, whatever callbacks, changes and failures other sources meet, as long as none for this source comes after its last capture and the load then is answered |
| CalibrationReloadTheorems.FullRefreshRecovers | positioning/src/positioning_service.py:205-210 | In particular every continuation of a reachable idle state made only of refresh steps with answered loads that ends idle has brought every source to the Manager's calibration |
| CalibrationReloadTheorems.FullRefreshEnds | positioning/src/positioning_service.py:205-210 | Such a continuation exists from every reachable idle state of a service with sources |
| PositioningService.Resolver.CalibrationGeneration | positioning/src/positioning/ptz_resolver.py:136-141 | The present generation, or an error for an unknown source |
| PositioningService.Resolver.UpdateCalibration | positioning/src/positioning/ptz_resolver.py:143-171 | Refused for an unknown source, a calibration of the wrong type or one whose history does not fit the ring buffer, with nothing changed; otherwise applied exactly when no generation is named or no invalidation came after its capture; an equal calibration keeps continuity |
| PositioningService.Resolver.InvalidateCalibration | positioning/src/positioning/ptz_resolver.py:186-193 | The generation grows by one and the source becomes pending; its calibration and motion continuity are kept |
| PositioningService.Service.OnCameraConfig | positioning/src/positioning_service.py:167-174 | A configured camera is invalidated with its calibration and continuity kept, pending afterwards and queued at most once; any other topic changes nothing |
| PositioningService.Service.QueueReload | positioning/src/positioning_service.py:176-181 | Queuing never raises, and a source already pending is not queued twice |
| PositioningService.Service.TakeRequest | positioning/src/positioning_service.py:211-214 | The oldest request leaves the queue but stays pending |
| PositioningService.Service.DiscardPending | positioning/src/positioning_service.py:215-216 | The request taken out is no longer pending, and the queue stays covered by the pending set |
| PositioningService.Service.ApplyLoad | positioning/src/positioning_service.py:187-198 | After the unlocked read, whatever invalidations came in between: a stale result or a transport error changes nothing, a loaded calibration takes over, and a rejected one or one the resolver refuses leaves none |
| PositioningService.Service.ReloadCalibration | positioning/src/positioning_service.py:183-198 | Both halves in a row have the effect of the outcome at the present generation |
| PositioningService.Service.RefreshAll | positioning/src/positioning_service.py:206-210 | After a full pass every source has what its load gave, and a transport error left its source as it was |
| PositioningService.Service.StartWorkers | positioning/src/positioning_service.py:222-226 | Only the first connection starts workers |
| ThresholdSweep.Tally | tools/reid_evaluation/evaluate.py:108-113 | Correct, wrong and rejected known queries add up to the known ones; false accepts never exceed the unknown ones, nor rank-1 hits the known ones |
| ThresholdSweep.RatesAddUp | tools/reid_evaluation/evaluate.py:115-131 | The three known rates add up to 1, the miss rate is one minus the identification rate, and a rate is absent exactly when there is nothing to rate |
| ThresholdCounts.TallyCounts | tools/reid_evaluation/evaluate.py:105-113 | Each count is the number of rows of its kind: known, unknown, identified, misidentified, rejected, falsely accepted, right at rank 1 |
| ThresholdCounts.TallyPrecisions | tools/reid_evaluation/evaluate.py:121 | The average precisions summed are those of the known queries |
| ThresholdCounts.RatesSay | tools/reid_evaluation/evaluate.py:115-131 | Which count each rate divides by which total, and that it is absent over nothing |
| ThresholdSweep.CandidateFor | tools/reid_evaluation/evaluate.py:142-145 | For every valid threshold some valid candidate accepts the same queries and is no worse in the tie-break, an L2 threshold beyond all scores apart |
| ThresholdCalibration.Summarize | tools/reid_evaluation/evaluate.py:94-131 | Fails exactly on an invalid threshold; otherwise counts, rank-1, mean average precision and rates are those of the rows, with one prediction for each evaluated row, in order |
| ThresholdCalibration.Candidates | tools/reid_evaluation/evaluate.py:142-147 | The swept list holds exactly the scores, their neighbours and the ends of the range |
| ThresholdCalibration.Sorted | tools/reid_evaluation/evaluate.py:147 | Strictly ascending with the same members |
| ThresholdCalibration.CountKinds | tools/reid_evaluation/evaluate.py:139-141 | Whether any evaluated query is known, and whether any is unknown |
| ThresholdCalibration.SweepCovers | tools/reid_evaluation/evaluate.py:146-159 | The best candidate is best among all valid thresholds, tie-break included unless the metric is L2 and the target 1, and no candidate meeting the target means no threshold does |
| ThresholdCalibration.CalibrateThreshold | tools/reid_evaluation/evaluate.py:134-159 | The returned threshold meets the target and no valid threshold has better rates, nor wins the tie-break at equal rates unless the metric is L2 and the target 1; each error is raised exactly in its case, "cannot be met" only when no valid threshold meets the target |
| ThresholdCounts.BetterInCounts | tools/reid_evaluation/evaluate.py:150-156 | The order on rates is, in counts: more identified, then fewer misidentified, then fewer false accepts, then the smaller cosine or larger L2 threshold |
| ThresholdCounts.ChosenInCounts | tools/reid_evaluation/evaluate.py:146-159 | The threshold found keeps the false accepts within the target, and no valid one that does is preferred in counts, an L2 one beyond every score at a target of 1 apart |
| ThresholdTieBreak.AcceptsAllExactlyWhen | tools/reid_evaluation/evaluate.py:134-159 | For L2 the best threshold accepts every score if and only if the target is 1 and the largest score is not positive or belongs to a known query with the right candidate |
| ThresholdTieBreak.L2TieBreakIsOpenAtTheEnd | tools/reid_evaluation/evaluate.py:153-156 | For L2 some valid threshold beats the returned one on the whole order if and only if the target is 1, the largest score is below the largest double, and it is not positive or belongs to a known query with the right candidate |
| GalleryRanking.GalleryOk | tools/reid_evaluation/evaluate.py:57-58 | The gallery is in strict id order and holds exactly the gallery samples |
| GalleryRanking.StrictOrderUnique | tools/reid_evaluation/evaluate.py:57-58 | Samples with distinct ids have one sorted order |
| GalleryRanking.StableOrderOk | tools/reid_evaluation/evaluate.py:81 | The ranking lists every position once, by score, ties by gallery position |
| GalleryRanking.AveragePrecisionRange | tools/reid_evaluation/evaluate.py:82-84 | Average precision is in (0, 1] and is 1 exactly when all matches come first |
| GalleryRanking.RowMeaning | tools/reid_evaluation/evaluate.py:70-90 | Known queries have a rank-1 verdict and an average precision, unknown ones neither and are never correct |
| GalleryRanking.CandidateIsBest | tools/reid_evaluation/evaluate.py:75-90 | The candidate has the best score of all permitted samples, the first in id order among equals |
| GalleryMatches.CandidateIsPermitted | tools/reid_evaluation/evaluate.py:65-90 | The candidate is never from the query's camera across cameras nor of the query's own track on its camera, and no gallery sample passing both tests scores better, nor equally and comes earlier |
| GalleryMatches.SkippedExactlyWhen | tools/reid_evaluation/evaluate.py:65-74 | A query is skipped exactly when no gallery sample passes the two tests, or its identity is in the gallery but on none that does; it is an error exactly when otherwise some score that counts is not finite |
| GalleryMatches.ScoredRow | tools/reid_evaluation/evaluate.py:65-90 | A scored row is that of a ranking of exactly the samples that pass the tests: identity and score of its first, verdicts, and as average precision the mean, over the matches, of matches so far divided by rank |
| GalleryMatches.IdOrderIsLexicographic | tools/reid_evaluation/evaluate.py:57-58 | The gallery's order is that of the first differing character of the ids, a proper prefix coming first |
| GalleryRanking.ManifestOrderIrrelevant | tools/reid_evaluation/evaluate.py:57-91 | Permuting the samples keeps validity, every query's row, and the rows as a multiset |
| ReidEvaluation.CheckSample | tools/reid_evaluation/evaluate.py:35-53 | A sample passes exactly when fields, id, split, embedding and dimension are all in order; the error names the first that is not |
| ReidEvaluation.Validate | tools/reid_evaluation/evaluate.py:32-55 | The loop accepts exactly the well-formed manifests |
| ReidEvaluation.ScoreAll | tools/reid_evaluation/evaluate.py:63-91 | The loop gives every query its row in manifest order, or fails when no complete list of rows exists because a score is not finite |
| ReidEvaluation.ScoreQueries | tools/reid_evaluation/evaluate.py:25-91 | Succeeds exactly when split, manifest, gallery, queries and all scores are in order, with one row per query in manifest order; each error is raised exactly in its case |
| ReidEvaluation.ScoresSay | tools/reid_evaluation/evaluate.py:25-91 | The rows of a scored manifest are, in manifest order, what cameras, tracks and scores of each query say; there are none exactly when a score that counts is not finite |
| ReidEvaluation.TallyPermuted | tools/reid_evaluation/evaluate.py:108-113 | The counts do not depend on the order of the rows |
| ReidEvaluation.ChosenUnique | tools/reid_evaluation/evaluate.py:153-159 | At most one threshold can be the outcome of a sweep |
| ReidEvaluation.OutcomePermuted | tools/reid_evaluation/evaluate.py:134-159 | Permuted rows give the same calibration outcome, errors included |
| ReidEvaluation.ScoringIgnoresManifestOrder | tools/reid_evaluation/evaluate.py:25-91 | One order of a manifest can be scored if and only if every other can |
| ReidEvaluation.CalibrationIgnoresManifestOrder | tools/reid_evaluation/evaluate.py:134-159 | Calibration on the scores of permuted manifests returns the same threshold and counts, or the same error |
| Rotations.RotationInverse | sample_data/drone_sim/drone_cam_sim.py:170-173 | The transpose that the homography uses is the inverse, and is the adjugate |
| Rotations.RotationProduct | sample_data/drone_sim/drone_cam_sim.py:151-158 | A product of rotations is a rotation, determinant included |
| QuaternionRoutines.DroneRoundTrip | sample_data/drone_sim/drone_cam_sim.py:74-95 | In all four branches, for every rotation, the divisor is positive and the result is a unit quaternion of that rotation |
| QuaternionRoutines.MappingRoundTrip | mapping/src/model_interface.py:253-294 | The same for the routine without normalisation and with strict comparisons |
| UnitQuaternions.UnitGivesRotation | sample_data/drone_sim/drone_cam_sim.py:74-95 | Every unit quaternion's matrix is a rotation |
| CameraAxes.QuaternionAboutX | sample_data/drone_sim/drone_cam_sim.py:74-95 | A quaternion along the x axis, real part last, is the positive turn about x by twice its half angle |
| CameraAxes.QuaternionAboutY | sample_data/drone_sim/drone_cam_sim.py:74-95 | The same about y |
| CameraAxes.QuaternionAboutZ | sample_data/drone_sim/drone_cam_sim.py:74-95 | The same about z |
| UnitQuaternions.SignUnique | sample_data/drone_sim/drone_cam_sim.py:74-95 | Two unit quaternions of one rotation are equal or opposite |
| UnitQuaternions.QuaternionRoundTrip | mapping/src/model_interface.py:253-294 | For every unit q both routines applied to q's matrix return q or -q |
| UnitQuaternions.RoutinesAgree | mapping/src/model_interface.py:253-294 | On every rotation the two routines agree up to sign |
| UnitQuaternions.RoutinesEqualExactlyWhen | mapping/src/model_interface.py:268-292 | The routines return the same quaternion if and only if their tie tests take the same branch or the mirrored entries of the two axes taken have a positive sum |
| UnitQuaternions.TieGivesOppositeSigns | sample_data/drone_sim/drone_cam_sim.py:82-93 | A half turn on which the different tie tests give opposite quaternions |
| DroneCamera.StartSucceeds | sample_data/drone_sim/drone_cam_sim.py:115-131 | Construction succeeds exactly for non-zero focal lengths, and then the base pose is a rotation |
| DroneCamera.AxisRotations | sample_data/drone_sim/drone_cam_sim.py:46-61 | The three axis matrices are rotations |
| DroneCamera.EulerRotates | sample_data/drone_sim/drone_cam_sim.py:64-71 | Every Euler triple gives a rotation |
| CameraAxes.EulerForward | sample_data/drone_sim/drone_cam_sim.py:64-71 | The base camera's viewing direction by its Euler angles, which the third leaves alone |
| CameraAxes.EulerTurnsImage | sample_data/drone_sim/drone_cam_sim.py:64-71 | The third Euler angle turns the image plane, which the other two then tilt |
| DroneCamera.GimbalRotates | sample_data/drone_sim/drone_cam_sim.py:151-158 | The gimbal orientation is a rotation at every instant |
| CameraAxes.OpticalAxisFollows | sample_data/drone_sim/drone_cam_sim.py:151-158 | Whatever the roll, yaw turns the optical axis to the right and pitch turns it upwards |
| CameraAxes.RollTurnsImage | sample_data/drone_sim/drone_cam_sim.py:151-158 | Roll turns the image plane about the optical axis, from right towards down, before yaw and pitch tilt it |
| CameraAxes.YawKeepsDown | sample_data/drone_sim/drone_cam_sim.py:151-158 | Yaw alone keeps the optical y axis |
| CameraAxes.PitchKeepsRight | sample_data/drone_sim/drone_cam_sim.py:151-158 | Pitch alone keeps the optical x axis |
| DroneCamera.BodyRotates | sample_data/drone_sim/drone_cam_sim.py:180-191 | Camera and body orientation in the scene are rotations, so that the quaternion routine applies |
| CameraAxes.SceneOpticalAxis | sample_data/drone_sim/drone_cam_sim.py:180-182 | In the scene the optical axis is the gimbal's, turned by the base pose |
| CameraAxes.BodyLooksForward | sample_data/drone_sim/drone_cam_sim.py:184-196 | The body's forward, right and down are the camera's optical, right and down axes |
| DroneCamera.IntrinsicsInvert | sample_data/drone_sim/drone_cam_sim.py:98-104 | The inverse camera matrix is an inverse on both sides for non-zero focal lengths |
| DroneCamera.ZoomStaysWithinLimits | sample_data/drone_sim/drone_cam_sim.py:139-149 | The zoom stays between its configured limits at every instant, whichever is larger, and is never zero when both are positive |
| CameraAxes.ZoomFollowsSine | sample_data/drone_sim/drone_cam_sim.py:139-149 | The zoom is as far from its lower limit, relative to the range, as the sine from -1 |
| CameraAxes.ZoomMagnifies | sample_data/drone_sim/drone_cam_sim.py:160-168 | Zooming scales every pixel's offset from the principal point by the zoom factor |
| DroneCamera.MountUndone | sample_data/drone_sim/drone_cam_sim.py:184-203 | Published body pose composed with published mount gives the camera's rotation in the scene, both read back from their quaternions |
| DroneCamera.BackProjection | sample_data/drone_sim/drone_cam_sim.py:160-173 | Undoing the zoomed intrinsics after the warp leaves the base ray in the virtual camera's frame |
| DroneCamera.SceneRayStable | sample_data/drone_sim/drone_cam_sim.py:170-203 | Warp, back-project and rotate by the published pose and mount: the scene ray of the base pixel, for every pixel and at every instant with non-zero zoom |
| DroneCamera.ZeroZoomCollapses | sample_data/drone_sim/drone_cam_sim.py:160-173 | At zero zoom every base pixel is warped onto one virtual pixel, so the condition is needed |
| DroneCamera.WarpedDepth | sample_data/drone_sim/drone_cam_sim.py:170-182 | A warped pixel's third coordinate is its ray's depth along the virtual optical axis |
| DroneCamera.PixelSeesSameRay | sample_data/drone_sim/drone_cam_sim.py:170-203 | In pixel coordinates the ray is only rescaled, positively exactly when it points ahead of the virtual camera |
| ClusterMatching.NearestIsFirstMinimum | cluster_analytics/src/cluster_analytics_tracker.py:161-174 | The scan gives the first eligible cluster at minimal distance, and nothing exactly when nothing is eligible |
| ClusterMatching.AbsorbKeeps | cluster_analytics/src/cluster_analytics_tracker.py:103-136 | One detection goes to an alive unmatched prior cluster or a new one, and every other cluster and every identity is untouched |
| ClusterMatching.TargetsAreOneToOne | cluster_analytics/src/cluster_analytics_tracker.py:101-121 | No two detections of an update go to one cluster; a cluster created in the call absorbs nothing more in it |
| ClusterMatching.GreedyPlaces | cluster_analytics/src/cluster_analytics_tracker.py:112-136 | After the update every detection is the content of the cluster it went to, last seen now |
| ClusterMatching.GreedyCreates | cluster_analytics/src/cluster_analytics_tracker.py:122-136 | Created clusters come from detections and have fresh ids and this timestamp |
| ClusterMatching.GreedyCounts | cluster_analytics/src/cluster_analytics_tracker.py:101-136 | Created = detections - matched |
| ClusterMatching.GreedyMatches | cluster_analytics/src/cluster_analytics_tracker.py:121 | A prior cluster is matched exactly when a detection went to it |
| ClusterMatching.GreedyIsNearest | cluster_analytics/src/cluster_analytics_tracker.py:108-123 | Each detection goes to the nearest cluster left over by the earlier ones if that is in reach, and creates one only when nothing is |
| ClusterDistances.EachGoesNearest | cluster_analytics/src/cluster_analytics_tracker.py:97-123 | In coordinates: a detection goes to a cluster within the matching distance in both coordinates and in the plane, no other that may take it being nearer; or to a new one, when all that may take it are farther than that |
| ClusterDistances.UpdateMovesNearest | cluster_analytics/src/cluster_analytics_tracker.py:97-136 | Over a whole update a cluster moves at most the matching distance, to where no cluster left alone was nearer, and none is created where one left alone was in reach |
| ClusterMatching.UpdateIsOneToOne | cluster_analytics/src/cluster_analytics_tracker.py:78-136 | The whole update at once: one-to-one, untouched rest, permanent identities, counts |
| ClusterTracking.ClusterTracker.constructor | cluster_analytics/src/cluster_analytics_tracker.py:65-72 | An empty tracker with the given limits |
| ClusterTracking.ClusterTracker.IndexAlive | cluster_analytics/src/cluster_analytics_tracker.py:95-99 | The index lists exactly the alive clusters of each category, in order |
| ClusterTracking.ClusterTracker.Unmatched | cluster_analytics/src/cluster_analytics_tracker.py:108-109 | The list keeps exactly the clusters not matched yet, in order |
| ClusterTracking.ClusterTracker.NearestOf | cluster_analytics/src/cluster_analytics_tracker.py:161-174 | The strict comparison loop over the listed candidates finds the nearest eligible cluster of the whole scene |
| ClusterTracking.ClusterTracker.MatchDetections | cluster_analytics/src/cluster_analytics_tracker.py:95-136 | The loop over detections, with its index and matched set, refines the recursive greedy matcher, and moves clusters by at most the matching distance as the update should |
| ClusterTracking.ClusterTracker.Update | cluster_analytics/src/cluster_analytics_tracker.py:78-136 | The new state is the greedy update of that scene, other scenes unchanged |
| ClusterTracking.UpdateIsLocal | cluster_analytics/src/cluster_analytics_tracker.py:92-136 | An update sets its scene's time, whatever it was, moves that scene's clusters to nearest detections, and leaves every other scene alone |
| ClusterTracking.ClusterTracker.GetClusters | cluster_analytics/src/cluster_analytics_tracker.py:139-145 | The clusters last seen no longer than the expiry before the scene's latest time, in order |
| ClusterTracking.ClusterTracker.ClearScene | cluster_analytics/src/cluster_analytics_tracker.py:147-155 | The scene's clusters and time are gone, everything else stays |
| ClusterRuns.TargetsWereAlive | cluster_analytics/src/cluster_analytics_tracker.py:97-99 | Only clusters alive when the update began are matched |
| ClusterRuns.RunKeepsOk | cluster_analytics/src/cluster_analytics_tracker.py:92-155 | Over every run, in whatever order its timestamps come, ids stay unique within and across scenes |
| ClusterRuns.RunKeepsTimes | cluster_analytics/src/cluster_analytics_tracker.py:92-155 | Over every run forward in time, no cluster is seen before its first sighting or after its scene's time |
| ClusterRuns.GoneMeansNotReturned | cluster_analytics/src/cluster_analytics_tracker.py:139-145 | An id is gone exactly when no scene's `get_clusters` returns it |
| ClusterRuns.ExpiryIsFinal | cluster_analytics/src/cluster_analytics_tracker.py:92-145 | Over every run forward in time an id once gone is never returned again, from whatever state earlier timestamps left |
| ClusterRuns.ExpiryIsFinalFromStart | cluster_analytics/src/cluster_analytics_tracker.py:65-145 | In particular an id that is gone after any run of a new tracker stays gone over every continuation forward in time |
| ClusterRuns.MatchedWasLive | cluster_analytics/src/cluster_analytics_tracker.py:95-121 | An update matches only ids that were being returned |
| ClusterRuns.GoneIsNotMatched | cluster_analytics/src/cluster_analytics_tracker.py:95-121 | Nor is a gone id ever matched again |
| ClusterRuns.TimeGoingBackRevives | cluster_analytics/src/cluster_analytics_tracker.py:139-145 | A run with a timestamp going back in which a gone cluster returns: the hypothesis is needed |
| ClusterRuns.RevivedExactlyWhen | cluster_analytics/src/cluster_analytics_tracker.py:92-145 | In every state any run can reach, an event brings a gone id back if and only if it is an update that finds a stored cluster with the id alive at its timestamp (and does not move it on, should the expiry be negative); that timestamp is then before the scene's latest |
| ClusterRuns.GoneThroughoutExactlyWhen | cluster_analytics/src/cluster_analytics_tracker.py:65-145 | Over any run at all, an id gone at the start stays gone throughout if and only if no update of the run finds it so |
| ClusterRuns.IdentityIsPermanent | cluster_analytics/src/cluster_analytics_tracker.py:112-136 | Over any run, whatever its timestamps, a cluster's id never changes scene, category or first sighting |
| ClusterAnalysis.GroupByCategory | cluster_analytics/src/cluster_analytics_context.py:280-284 | The groups hold exactly the objects of each category present, in order |
| ClusterAnalysis.CollectMembers | cluster_analytics/src/cluster_analytics_context.py:327-333 | The members of a label, in order |
| ClusterAnalysis.DetectCategory | cluster_analytics/src/cluster_analytics_context.py:317-360 | One detection for each label but noise; object counts plus noise equal the objects of the category |
| ClusterAnalysis.DetectionIsCentred | cluster_analytics/src/cluster_analytics_context.py:335-349 | The centre of a detection is where its members' offsets cancel out |
| ClusterAnalysis.DetectionNamesMembers | cluster_analytics/src/cluster_analytics_context.py:343-358 | A detection counts and names its members in order and carries category and parameters |
| ClusterAnalysis.ObjectsAreConserved | cluster_analytics/src/cluster_analytics_context.py:326-333 | Distinct labels that cover all labels account for every object exactly once |
| ClusterAnalytics.EachObjectInOneDetection | cluster_analytics/src/cluster_analytics_context.py:299-360 | Every object of a clustered category that is not noise is in exactly one detection |
| ClusterAnalytics.EachDetectionHasMembers | cluster_analytics/src/cluster_analytics_context.py:299-360 | Every detection is of a category with at least its minimum of objects and of a label other than noise, from exactly the objects with that label |
| ClusterAnalytics.EarlyExitLosesNothing | cluster_analytics/src/cluster_analytics_context.py:286-297 | When the early exit is taken, the full pass would find nothing and would not fail |
| ClusterAnalytics.MinimumRequired | cluster_analytics/src/cluster_analytics_context.py:286-291 | The least minimum among the categories present, or the default |
| ClusterAnalytics.DetectAll | cluster_analytics/src/cluster_analytics_context.py:299-360 | The loop produces one detection per cluster of each large enough category, and fails exactly when DBSCAN raises for one |
| ClusterAnalytics.LastChangeIsInForce | cluster_analytics/src/cluster_analytics_context.py:119-181 | After any run of calls the lookup gives what the last set of that category in that scene said, in any spelling, or the configuration if a reset came last or the scene is unnamed |
| ClusterAnalytics.StepKeepsParameters | cluster_analytics/src/cluster_analytics_context.py:155-181 | Analyse, set and reset each keep every tracked cluster's parameters equal to what the lookup returns |
| ClusterAnalytics.RunKeepsParameters | cluster_analytics/src/cluster_analytics_context.py:119-181 | Over every sequence of whole calls the parameters of every tracked cluster are those in force |
| ClusterAnalytics.ServiceKeepsParameters | cluster_analytics/src/cluster_analytics_context.py:62-181 | In particular from the start of the service, whatever the configuration |
| ClusterAnalytics.UpdateKeepsExactlyWhen | cluster_analytics/src/cluster_analytics_context.py:300-362 | Whatever parameters its detections carry, an update keeps the property if and only if they are those in force when it happens |
| ClusterAnalytics.OverlapKeepsExactlyWhen | cluster_analytics/src/cluster_analytics_context.py:300-362 | When other calls come between an analysis's lookups and its update, the property survives if and only if they left the lookups of its detections' categories as they were |
| ClusterAnalytics.LateUpdateLeavesOldParameters | cluster_analytics/src/cluster_analytics_context.py:300-362 | A change that overlaps an analysis and alters its lookup leaves a cluster with the old parameters |
| ClusterAnalytics.Service.constructor | cluster_analytics/src/cluster_analytics_context.py:62-72 | No overrides and an empty tracker with the default limits |
| ClusterAnalytics.Service.SetParameters | cluster_analytics/src/cluster_analytics_context.py:155-170 | The override is stored under the lower-case category and the scene is cleared |
| ClusterAnalytics.Service.ResetParameters | cluster_analytics/src/cluster_analytics_context.py:172-181 | The override is removed if there is one and the scene is cleared either way |
| ClusterAnalytics.Service.Analyze | cluster_analytics/src/cluster_analytics_context.py:277-369 | With or without the early exit the tracker is updated with a full pass stamped with the parameters in force; a DBSCAN exception leaves everything unchanged |
| MarkerStore.MarkerIdsDiffer | autocalibration/src/atag_camera_calibration_controller.py:130 | Within a scene different tags have different marker ids |
| MarkerStore.RestClient.GetMarkers | scene_common/src/scene_common/rest_client.py:701-708 | An answered listing has exactly the scene's markers, each once |
| MarkerStore.RestClient.CreateMarker | scene_common/src/scene_common/rest_client.py:719-726 | Succeeds exactly when answered and the id is free; a lost reply still creates |
| MarkerStore.RestClient.UpdateMarker | scene_common/src/scene_common/rest_client.py:728-735 | Succeeds exactly when answered and the id exists; a lost reply still updates |
| MarkerStore.RestClient.DeleteMarker | scene_common/src/scene_common/rest_client.py:737-744 | Succeeds exactly when answered and the id exists; a lost reply still deletes |
| MarkerStore.RestClient.UpdateScene | scene_common/src/scene_common/rest_client.py:322-332 | Sets the scene's processed time unless refused or unknown |
| MarkerReplacement.CalibrationModel.DeleteListed | autocalibration/src/auto_camera_calibration_model.py:139-148 | The loop stops at the first call not answered, with exactly the first so many listed markers gone |
| MarkerReplacement.CalibrationModel.DeleteMarkersForScene | autocalibration/src/auto_camera_calibration_model.py:128-148 | True exactly when every call was answered, and then no marker of the scene is left; other scenes are never touched |
| MarkerReplacement.CalibrationModel.UpdateOrCreate | autocalibration/src/auto_camera_calibration_model.py:150-166 | Succeeds exactly when every call is answered, the scene is known and no other scene has the id, and then the marker is stored |
| MarkerReplacement.AprilTagController.InsertAll | autocalibration/src/atag_camera_calibration_controller.py:128-139 | On a cleared scene, success leaves exactly the new markers and failure only some of them |
| MarkerReplacement.AprilTagController.ReplaceMarkers | autocalibration/src/atag_camera_calibration_controller.py:125-139 | Clearing and inserting never touches the processed time, and succeeds exactly when all its calls are answered, ids do not clash and the scene is known if there is anything to insert |
| MarkerReplacement.AprilTagController.SaveToDatabase | autocalibration/src/atag_camera_calibration_controller.py:111-145 | Succeeds exactly when all calls it needs are answered, the scene is known and ids do not clash, leaving exactly the new markers; each failure says what is left and after how many calls; a raise leaves the processed time alone, except exactly when all calls before the last are answered, nothing else is in the way and the last one's reply is lost |
| MarkerReplacement.SaveWithLastReplyLost | autocalibration/src/atag_camera_calibration_controller.py:140-144 | Whatever is in the store, losing only the last reply makes the save raise with the markers replaced and the map marked processed |
| MarkerReplacement.AprilTagController.ReadBack | autocalibration/src/atag_camera_calibration_controller.py:80-88 | What was stored exactly is read back as the same map; a failed listing gives none |
| MarkerReplacement.AprilTagController.Rescan | autocalibration/src/atag_camera_calibration_controller.py:62-69 | The scan is in memory even when saving raises, and the processed time changes only together with an exact replacement |
| MarkerReplacement.AprilTagController.ProcessScene | autocalibration/src/atag_camera_calibration_controller.py:53-92 | A registered rescan has exactly the scanned markers in store and in memory; without a rescan the store is untouched |
| CalibrationLocks.RunKeeps | autocalibration/src/auto_camera_calibration_context.py:104-231 | The ownership invariant holds after every interleaving and failure of requests and tasks |
| CalibrationLocks.HeldByExactlyOne | autocalibration/src/auto_camera_calibration_context.py:169-178 | A lock is held exactly while one request or task owns it |
| CalibrationLocks.ReleasedOncePerAcquire | autocalibration/src/auto_camera_calibration_context.py:204-231 | Releases never exceed acquires, and a finished request has released exactly as often as it acquired |
| CalibrationLocks.ReleasesOnlyItsOwn | autocalibration/src/auto_camera_calibration_context.py:176-178 | Every release is of a lock that is held and owned by the releaser alone |
| CalibrationLocks.NeverOverlap | autocalibration/src/auto_camera_calibration_context.py:123-152 | Two calibrations under one lock never run at once, although the camera's pre-check is not atomic |
| CalibrationLocks.BusyMeansOwned | autocalibration/src/auto_camera_calibration_context.py:169-187 | A request is answered busy exactly when another one owns its lock: one modality never blocks another |
| CalibrationLocks.LastSaidIsShown | autocalibration/src/auto_camera_calibration_context.py:104-231 | After any run the result shown for a device is the last thing said of it: unsupported, busy, calibrating, or the task's own outcome |
| CalibrationLocks.SomeoneCanMove | autocalibration/src/auto_camera_calibration_context.py:104-152 | While a request is unfinished some request can move |
| CalibrationLocks.TwoCamerasPassTheCheck | autocalibration/src/auto_camera_calibration_context.py:108-121 | A run in which two camera requests both find the lock free and neither is told busy |
| CalibrationLocks.LateAnnouncementHidesResult | autocalibration/src/auto_camera_calibration_context.py:172-182 | A run in which "calibrating" is written after the task has stored its result and ended |
| CalibrationLocks.ResultStaysUnlessAnnounced | autocalibration/src/auto_camera_calibration_context.py:172-182 | Over a run in which no other request concerns the device, its stored result is overwritten if and only if its own announcement is in the run |
| CalibrationLocks.ResultStaysExactlyWhenReturned | autocalibration/src/auto_camera_calibration_context.py:172-182 | A stored result is safe in every continuation that no other request for the device joins, if and only if its own request has returned already |
| CalibrationContext.Context.constructor | autocalibration/src/auto_camera_calibration_context.py:44-58 | No lock held, no result, no request |
| CalibrationContext.Context.Resolve | autocalibration/src/auto_camera_calibration_context.py:189-202 | A missing modality means the default, whatever is accepted has a strategy, and exactly the spellings without one are refused |
| CalibrationContext.Context.CheckLock | autocalibration/src/auto_camera_calibration_context.py:169-187 | Looking at the lock is one step of the state machine; a sensor request takes it in that step |
| CalibrationContext.Context.AnnounceStart | autocalibration/src/auto_camera_calibration_context.py:179-182 | The announcement is one step and keeps the ownership invariant |
| CalibrationContext.Context.LaunchTask | autocalibration/src/auto_camera_calibration_context.py:171-182 | A failed start gives a sensor's lock back before raising, and leaves a camera's alone |
| CalibrationContext.Context.CalibrateSensor | autocalibration/src/auto_camera_calibration_context.py:154-187 | An uninterrupted sensor request is the run for its case: unsupported, busy, raised with nothing changed, or started |
| CalibrationContext.Context.CalibrateCamera | autocalibration/src/auto_camera_calibration_context.py:104-121 | An uninterrupted camera request is the run for its case and never holds the lock |
| CalibrationContext.Context.Process | autocalibration/src/auto_camera_calibration_context.py:204-231 | The task releases its lock whether or not it gets as far as a result |
| CalibrationContext.Context.EnterCamera | autocalibration/src/auto_camera_calibration_context.py:128-129 | The camera's task takes the lock only when it is free |

## Left out

- Floating-point rounding everywhere: geometry, rates, averages and distances are exact; tracker and analytics times and coordinates are reals, without NaN or infinity.
- Wall-clock durations: a timeout is a step that may happen whenever its wait is not over; `make_gst_to_wall` and the frame-rate smoothing are not modelled.
- FIFO, MQTT, REST transport, Socket.IO and subprocess handling: a line arrives, a publish happens, a call is answered or not. REST calls are modelled by their replies; an exception from the HTTP library counts as a failed call.
- `published += 1` and the recording that follows it are one step of the stream; nothing reads the counter in between.
- CheckSample: blank fields are recognised by ASCII white space only, because string normalisation is not modelled, and every field is a string; the finiteness and norm tests are parameters.
- Summarize: the rates are exact fractions and averages, not rounded doubles.
- ScoreQueries: the scoring function is a parameter; matrix products, clipping and the error for an unknown metric name are not modelled. Manifest loading and report writing are left out.
- UpdateCalibration: the reason a source reports with its next sample (`pending_reason`) and the version metric are left out.
- ReloadCalibration: the method has no invalidation between its halves; `ApplyLoad` covers those, and the state machine of `CalibrationReload` has them anywhere.
- RefreshAll: the method has no callback between its reloads; the state machine of `CalibrationReload` has, and `ApplyLoad` covers invalidations during a load.
- DetectCategory: the shape and velocity analysis of a cluster is left out; its detection carries counts, ids, centre and parameters.
- Analyze: timestamps are given as numbers, and every object has a category and coordinates; parsing and the fallbacks for missing fields are left out.
- Resolve: trimming and lower-casing are one given function, and a modality that is not a string is not modelled.
- The flight profile's sine waves: an instant is any gimbal orientation with any zoom driven by a value between -1 and 1, so the theorems hold for every profile. Image interpolation is left out.
- Tracked clusters are values in the scene's ordered list rather than objects shared by the dictionary and the index. A cluster matched in a call is never a candidate again in it, so the sharing shows nowhere. Fresh ids come from a counter instead of random UUIDs.
- Publishing of clusters and the web interface's own code.
- DBSCAN, OpenCV, Open3D, the AprilTag detector and the localisation strategies: oracles or parameters.
- The Socket.IO notifications of calibration results, and scene registration threads (`register_thread_lock`).
- The C++ tracker and controller, model configuration generators, request validators, mapping model inference and the user interfaces are not part of this model.
