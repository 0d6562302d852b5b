# Verified models of a LiDAR-inertial and RGB-D capture workspace

Dafny models of the hardest parts of the repository, with proofs. Times, coordinates and other
floating-point numbers are exact reals or integers; libraries that are not part of the
repository (matrices, SLERP, tf2, the Kalman filter, the point sort) are function parameters,
so what is proved holds for every such library that meets the laws written down.

* **Dual-LiDAR synchroniser** (`OfflineMatch`, `Synchroniser`, `SyncRuns`, `PairingRefinement`,
  `LatchRuns`, `BundleEnds`). Callbacks fill parallel queues; `sync_packages` drops unpaired scans,
  latches a pair, waits for the IMU and cuts the IMU stream. The class `Globals` is proved against
  functions on its state, and runs of callbacks and polls in any order are proved to carry out an
  offline match. With clocks that run backwards, every scan is followed by the position of its event.
* **IMU processing** (`Undistortion`, `ImuProcess`, `FilterTime`, `InitialMeans`, `ScanMeans`,
  `FirstPoint`, `ImuRuns`, `FilterInputs`). Running means and covariances, propagation and the
  backward walk over the points. Synchroniser and propagation together make the time steps of the
  filter tile time, and every step is given the average of its two samples.
* **Map window** (`MapWindow`). The sliding box, with exact conditions for never losing the
  sensor and for coming to rest.
* **RGB-D engine** (`RgbdTypes`, `RgbdPairing`, `RgbdPairingRuns`, `RgbdConfluence`, `RateLimiter`,
  `OdometryWindow`, `RgbdGroup`, `RgbdEngine`, `CaptureEngine`, `RgbdRuns`, `RgbdWaiting`,
  `RgbdRefinement`, `RgbdReport`, `RgbdMeaning`, `RgbdOutcomes`, `RgbdFrames`, `RgbdDrains`,
  `RgbdInput`). Pairing, phase-grid rate limit, odometry window, draining, what whole sessions keep
  and report, and what every message and every frame of them means. An exception is the value
  `None`; it aborts the session.
* **Validator** (`RgbdValidator`, `RgbdParse`, `RgbdReading`, `RgbdAccepted`, `RgbdRecording`,
  `RgbdAgreement`, `RgbdSession`, `RgbdVerdict`, `RgbdExtrinsics`, `RgbdCreep`). `frame_groups` and
  `check_bag` with the tolerances of numpy's `allclose`: exactly which bags they accept, and when
  they accept what the engine wrote.
* **Capture queue** (`CaptureQueue`, `CaptureAlarm`). The byte accounting between callbacks and the
  main loop, and exactly when it alarms.
* **Pool allocator** (`PoolAllocator`, `PoolRuns`, `PoolAnswers`, `PoolList`). Separation of blocks,
  on values and on the linked list of chunk headers, and what each call answers. The header has 24
  bytes, an aligned size.
* **SAX and DOM** (`SaxValues`, `SaxDocument`, `SaxRoundTrip`, `SaxHandler`,
  `SaxTraversal`). `Accept` sends any handler the events of a value until one is refused; `Accept`
  and the handler of `GenericDocument` undo each other.
* **CRC** (`Bits`, `ShiftRegister`, `FastCrc`, `CrcUpdates`, `CrcProperties`, `CrcResidues`,
  `CrcChecks`). The slicing forms equal the bitwise register. Words are lists of bits, low bit first;
  tables are defined by recurrence from the polynomial.
* **Wake-up protocol** (`WakeUp`). Producers, a counting semaphore and the scanning consumer.

Where code and comments disagree the code is modelled: `mcrf4xx` sets seed 0 and not the 0xffff of
its comment (src/Livox-SDK2/3rdparty/FastCRC/FastCRCsw.cpp:243-244).

Five expectations one may have of the code are false at the edge. For each a failing input is given
and the exact condition is proved:

* a map window comes to rest around a stationary sensor: exactly when its side exceeds 3.5 detection
  ranges (`MapWindow.SettlesIff`, with `MapWindow.RestlessReached` leading to the failing box);
* every point is compensated once: the first one exactly when at most one head lies before it
  (`FirstPoint.FirstPointInBundle`, with a run of the node in `FirstPoint.FirstPointMovedTwice`);
* the scans that leave the queues are those of the bundle: exactly when no clock ran backwards while
  the pair was latched (`LatchRuns.PoppedIsLatchedIff`, with a run in `LatchRuns.StalePairIsEmitted`);
* a number value survives its events: exactly when a numeric constructor makes it
  (`SaxRoundTrip.NumberSurvivesIff`, with the default kind in `SaxRoundTrip.DefaultNumberBecomesDouble`);
* the validator accepts what a session that met no error has written: exactly when the bag has a
  frame, static transforms and the world-to-body edge, raw sensors are complete, and the final
  extrinsic is `allclose` to that of every frame (`RgbdVerdict.ProducerAndValidatorAgree`, with a
  session in `RgbdCreep.CreepIsRefused` whose extrinsic creeps within the tolerance of the engine;
  one that never changes is accepted, `RgbdExtrinsics.ConstantIsAccepted`).

Check everything with `dafny verify dfyconfig.toml --resource-limit 2000000`.

## Model

| member | source | states |
|---|---|---|
| Synchroniser.Globals.constructor | lio_ws/src/FAST_LIO_MULTI/src/laserMapping_bundle.cpp:92 | the globals before the first message |
| Synchroniser.Globals.LidarCallback | lio_ws/src/FAST_LIO_MULTI/src/laserMapping_bundle.cpp:235-253 | a scan is queued with its stamp in both queues of its lidar; if its stamp lies before the last one the queues are emptied first |
| Synchroniser.Globals.LidarCallback2 | lio_ws/src/FAST_LIO_MULTI/src/laserMapping_bundle.cpp:255-273 | the same for the second lidar |
| Synchroniser.Globals.ImuCallback | lio_ws/src/FAST_LIO_MULTI/src/laserMapping_bundle.cpp:317-336 | samples before the first scan are ignored; a stamp before the last one empties the queue first |
| Synchroniser.Globals.SyncPackages | lio_ws/src/FAST_LIO_MULTI/src/laserMapping_bundle.cpp:340-441 | one call does to all globals what the function Sync says: drop, latch, wait for the IMU tail, cut, pop one scan of each lidar |
| Synchroniser.Globals.DropUnpaired | lio_ws/src/FAST_LIO_MULTI/src/laserMapping_bundle.cpp:350-358 | the loop discards from the fronts of both queues exactly what the recursive Drops counts |
| Synchroniser.Globals.LatchFronts | lio_ws/src/FAST_LIO_MULTI/src/laserMapping_bundle.cpp:362-414 | latching re-bases the clouds shared with the queue fronts, transforms the second, ends both scans and fills the measure group |
| Synchroniser.Globals.EndScan | lio_ws/src/FAST_LIO_MULTI/src/laserMapping_bundle.cpp:368-383 | end time and running mean of one scan, too few points and too short a scan included |
| Synchroniser.Globals.CutImu | lio_ws/src/FAST_LIO_MULTI/src/laserMapping_bundle.cpp:421-430 | the cutting loop moves exactly the samples that the recursive Take counts, in order |
| OfflineMatch.MatchIsPairing | lio_ws/src/FAST_LIO_MULTI/src/laserMapping_bundle.cpp:350-358 | the two-pointer match of two complete stamp sequences pairs in order, within the skew, no scan twice |
| OfflineMatch.MatchIsLargest | lio_ws/src/FAST_LIO_MULTI/src/laserMapping_bundle.cpp:350-358 | on sorted stamps no pairing in order has more pairs than that match |
| OfflineMatch.HeadUnpairable | lio_ws/src/FAST_LIO_MULTI/src/laserMapping_bundle.cpp:350-358 | the older of two heads out of reach of each other can be paired with no scan of the other stream from there on |
| SyncRuns.RunTracks | lio_ws/src/FAST_LIO_MULTI/src/laserMapping_bundle.cpp:235-441 | in every reversal-free run: the queues hold exactly the scans not used up, every emitted bundle is made of its two scans with each point re-based exactly once (bundle start plus new offset is scan start plus old offset) and the second cloud transformed exactly once, however often the call was retried |
| LatchRuns.RunIsTagged | lio_ws/src/FAST_LIO_MULTI/src/laserMapping_bundle.cpp:235-441 | in every run, with clocks running backwards at any time: the queues hold the scans at the positions kept for them, a latched scan is at the front unless its clock ran back since, and every bundle is made of the two scans latched for it, re-based and transformed once, within the skew |
| LatchRuns.RunIsTimed | lio_ws/src/FAST_LIO_MULTI/src/laserMapping_bundle.cpp:360-439 | the positions kept for a bundle are the poll that latched its pair, which stayed latched from there on, and the poll that emitted it |
| LatchRuns.PoppedIsLatchedIff | lio_ws/src/FAST_LIO_MULTI/src/laserMapping_bundle.cpp:238-243 | in every run and for every bundle, of each lidar: the scan popped with the bundle is the one the bundle is made of exactly when no scan of that lidar ran backwards between the poll that latched and the poll that emitted |
| LatchRuns.LostUnused | lio_ws/src/FAST_LIO_MULTI/src/laserMapping_bundle.cpp:235-441 | in every run a scan popped in place of the latched one is in no bundle, and no scan is in two |
| LatchRuns.StalePairIsEmitted | lio_ws/src/FAST_LIO_MULTI/src/laserMapping_bundle.cpp:238-243 | a run that does this: a pair is latched at 10, a scan at 5 clears the first queue, and the next bundle is the pair at 10 while the scan at 5 leaves the queue unused |
| PairingRefinement.OnlineIsOffline | lio_ws/src/FAST_LIO_MULTI/src/laserMapping_bundle.cpp:340-441 | at every moment of a reversal-free run, whatever arrival and IMU timing: the emitted pairs are a prefix of the offline match of the complete sequences, each within the skew, and whatever was in reach of a used-up scan, then or later, was paired |
| Undistortion.Undistort | lio_ws/src/FAST_LIO_MULTI/src/IMU_Processing.hpp:392-429 | the two nested loops give every point of index 1 or more the result of one search of its own: moved once from the latest head strictly before it, untouched without one; index 0 is moved again at every earlier head |
| Undistortion.WalkHead | lio_ws/src/FAST_LIO_MULTI/src/IMU_Processing.hpp:407-427 | the inner loop at one head finishes exactly the waiting points after it |
| Undistortion.FirstPointIff | lio_ws/src/FAST_LIO_MULTI/src/IMU_Processing.hpp:396-429 | the first point is treated like all others, for every compensation, exactly when at most one head lies before it |
| FirstPoint.FirstPointInBundle | lio_ws/src/FAST_LIO_MULTI/src/IMU_Processing.hpp:330-429 | for every bundle, propagated from any state: exactly when at most one of the bundle start and the used samples, the last of these excepted, is earlier than the point |
| FirstPoint.FirstPointMovedTwice | lio_ws/src/FAST_LIO_MULTI/src/IMU_Processing.hpp:315-429 | a run of the node whose second bundle, one sample being left over from before its start, is propagated: in the cloud handed on the first point of the sorted first cloud has been compensated from the second pose and then again from the first |
| Undistortion.CloudIsCompensated | lio_ws/src/FAST_LIO_MULTI/src/IMU_Processing.hpp:396-429 | every point of a cloud is compensated once, from the latest pose strictly before it to the next, by the time since that pose, or left alone without one; the first one too unless several poses precede it |
| ImuProcess.ImuProcessor.constructor | lio_ws/src/FAST_LIO_MULTI/src/IMU_Processing.hpp:71-86 | a new processor needs initialisation, has counted nothing, and its last end time is whatever memory held |
| ImuProcess.ImuProcessor.ImuInit | lio_ws/src/FAST_LIO_MULTI/src/IMU_Processing.hpp:131-185 | the first bundle resets; then every sample moves the running means, with them the covariances, and the count, and the last sample is kept |
| ImuProcess.ImuProcessor.ForwardPropagation | lio_ws/src/FAST_LIO_MULTI/src/IMU_Processing.hpp:337-383 | the loop over sample intervals: skipped, cut at the last end, or whole, each with one filter step and one pose |
| ImuProcess.ImuProcessor.UndistortPclMultiLidar | lio_ws/src/FAST_LIO_MULTI/src/IMU_Processing.hpp:308-460 | propagation to the bundle end, then both clouds sorted and undistorted; the output is only written if neither cloud is empty |
| ImuProcess.ImuProcessor.Handle | lio_ws/src/FAST_LIO_MULTI/src/IMU_Processing.hpp:462-492 | Process: nothing without samples, initialisation until the counter, which starts at 1, exceeds ten and the configured covariances replace the gathered ones, then undistortion |
| FilterTime.TakeSplits | lio_ws/src/FAST_LIO_MULTI/src/laserMapping_bundle.cpp:421-430 | on samples in order the cut delivers every sample up to the bundle end and leaves only samples from the end on; a delivered sample means the first was strictly before the end |
| FilterTime.SyncCuts | lio_ws/src/FAST_LIO_MULTI/src/laserMapping_bundle.cpp:416-439 | one call keeps the IMU queue in order and, when it emits, no remaining or future sample is before the bundle end and no delivered one after it |
| FilterTime.ForwardTiles | lio_ws/src/FAST_LIO_MULTI/src/IMU_Processing.hpp:337-375 | no step goes backwards, and from a last end between the first two samples the steps add up to the time from that end to the last sample |
| FilterTime.PropagatedTiles | lio_ws/src/FAST_LIO_MULTI/src/IMU_Processing.hpp:337-390 | one propagated bundle moves the filter by exactly its end minus the last end, which is strictly earlier |
| FilterTime.PropagatedOnTime | lio_ws/src/FAST_LIO_MULTI/src/IMU_Processing.hpp:330-383 | there is one pose per sample and one at the start, and each pose offset counted from the bundle start is the time its filter has been moved to |
| ImuRuns.SamplesAreConserved | lio_ws/src/FAST_LIO_MULTI/src/laserMapping_bundle.cpp:317-430 | in every run with IMU stamps in order, whatever the lidar clocks do: the samples of all bundles and then those queued are exactly the samples that the callback accepted, in order |
| FilterTime.FilterTimeTiles | lio_ws/src/FAST_LIO_MULTI/src/IMU_Processing.hpp:337-390 | over any whole run with IMU stamps in order, whatever the lidar clocks do and whatever the uninitialised last end time was: no filter step is negative, ends strictly increase, and between any two propagated bundles the filter is moved by exactly the time between their ends |
| InitialMeans.InitialisationAverages | lio_ws/src/FAST_LIO_MULTI/src/IMU_Processing.hpp:137-165 | in every run the running means are the averages of all samples delivered during initialisation, each counted once, and initialisation ends with the bundle that brings the tenth sample |
| InitialMeans.NoiseIsConfigured | lio_ws/src/FAST_LIO_MULTI/src/IMU_Processing.hpp:366-386 | in every run: once initialised the covariances are the configured ones, and every filter step has the configured noise or, before the first of those, the noise of the library |
| InitialMeans.CovariancesAreGathered | lio_ws/src/FAST_LIO_MULTI/src/IMU_Processing.hpp:149-160 | until initialisation ends, in every run: each covariance is the average, over all samples delivered, of the squares of their distances from the mean so far, the n-th square counted (n - 1) / n times |
| FilterInputs.PropagatedSteps | lio_ws/src/FAST_LIO_MULTI/src/IMU_Processing.hpp:337-390 | one propagated bundle: of every used interval one filter step with the average of its two samples, componentwise, the acceleration scaled, and the configured noise; the step to the bundle end repeats the last input |
| FilterInputs.DeliveryIsExact | lio_ws/src/FAST_LIO_MULTI/src/IMU_Processing.hpp:308-492 | the same of every bundle of every run, its intervals being those of consecutive delivered samples, with the poses and the cloud handed on |
| ScanMeans.ScanEnds | lio_ws/src/FAST_LIO_MULTI/src/laserMapping_bundle.cpp:368-383 | a counted scan ends exactly its last offset after its start, which in a cloud in order of time is the time of its latest point, and enters the mean with its duration; any other one ends one mean after its start and leaves the mean alone |
| ScanMeans.MeansAreAverages | lio_ws/src/FAST_LIO_MULTI/src/laserMapping_bundle.cpp:368-409 | in every run, whatever the clocks do, the mean scan time of each lidar is the average of the durations counted for it, and the count is their number |
| BundleEnds.BundlesEndWithTheirScans | lio_ws/src/FAST_LIO_MULTI/src/laserMapping_bundle.cpp:362-439 | in every run, whatever the clocks do, both ends of every bundle are those of its two original scans: start plus last offset, or start plus the average of the durations counted before the pair was latched |
| BundleEnds.PollEmitsIff | lio_ws/src/FAST_LIO_MULTI/src/laserMapping_bundle.cpp:340-441 | after every run a poll emits exactly when samples are queued, there is a latched or a new pair, and the last IMU stamp has reached both of its ends |
| ImuRuns.QueueIsInOrder | lio_ws/src/FAST_LIO_MULTI/src/laserMapping_bundle.cpp:317-336 | in every run the queued samples are in order of their stamps and none is later than the last one accepted |
| MapWindow.LocalMap.FovSegment | lio_ws/src/FAST_LIO_MULTI/src/laserMapping_bundle.cpp:193-233 | one call centres the box the first time and later slides it on every axis with a near face, handing out the slabs left behind |
| MapWindow.LocalMap.SlideAxes | lio_ws/src/FAST_LIO_MULTI/src/laserMapping_bundle.cpp:213-230 | the loop over the axes slides exactly the axes of the per-axis definition, the lower face tested first |
| MapWindow.WindowHoldsSensor | lio_ws/src/FAST_LIO_MULTI/src/laserMapping_bundle.cpp:193-233 | with a box of at least 2.5 ranges and steps of at most half a range per axis, the sensor is at least half a range inside every face after each call, inside before it, and side lengths never change |
| MapWindow.WindowHoldsSensorIff | lio_ws/src/FAST_LIO_MULTI/src/laserMapping_bundle.cpp:193-233 | that margin is kept on all such paths exactly when the side is at least 2.5 detection ranges |
| MapWindow.SettlesWithinFour | lio_ws/src/FAST_LIO_MULTI/src/laserMapping_bundle.cpp:193-233 | a stationary sensor causes at most four moving calls when the side exceeds 3.5 ranges |
| MapWindow.SettlesIff | lio_ws/src/FAST_LIO_MULTI/src/laserMapping_bundle.cpp:193-233 | for sides from 2.5 ranges on: wherever a gentle path has led, a sensor that then stands still causes at most four moving calls exactly when the side is greater than 3.5 ranges; up to and at 3.5 a path of one call leads to a box that moves at every further call |
| MapWindow.SlideRecentres | lio_ws/src/FAST_LIO_MULTI/src/laserMapping_bundle.cpp:207-230 | a sensor that has just come within 1.5 ranges of a face is brought to a tenth of its distance from the middle, or in a smaller box the box moves half a range; a closer sensor moves it no farther |
| MapWindow.DeletionIsExact | lio_ws/src/FAST_LIO_MULTI/src/laserMapping_bundle.cpp:213-232 | for any combination of moved axes, the slabs and the new box together cover the old box and no slab meets the interior of the new box |
| CaptureEngine.Engine.constructor | rgbd_capture/core.py:143-159 | the engine before the first message |
| CaptureEngine.Engine.IngestMessage | rgbd_capture/core.py:161-211 | one message changes the whole state, the notes of the report included, as Ingest says, or aborts exactly when it does |
| CaptureEngine.Engine.Store | rgbd_capture/core.py:161-209 | counting, queueing, pairing and writing, before the final drain |
| CaptureEngine.Engine.IngestImage | rgbd_capture/core.py:163-183 | stamp checks, duplicates, sequence gaps, the bounded queue and pairing of an image |
| CaptureEngine.Engine.IngestOdometry | rgbd_capture/core.py:163-195 | stamp checks, duplicates and gaps of an odometry message, which is then accepted or aborts |
| CaptureEngine.Engine.AcceptOdometry | rgbd_capture/core.py:184-195 | frame and pose checks, the trimmed deque, the largest age and the written odometry |
| CaptureEngine.Engine.TrimOdometry | rgbd_capture/core.py:190-192 | the trimming loop pops exactly what the recursive Drops counts |
| CaptureEngine.Engine.LearnStatics | rgbd_capture/core.py:198-206 | the transforms of a message enter list and buffer in turn, and one invalid transform aborts |
| CaptureEngine.Engine.Pair | rgbd_capture/core.py:213-240 | the loop of _pair over both queues, due time, waiting pairs and counts |
| CaptureEngine.Engine.PairOnce | rgbd_capture/core.py:217-240 | one turn of that loop |
| CaptureEngine.Engine.FindNearest | rgbd_capture/core.py:219-220 | the search for the nearest depth image, the first of equals |
| CaptureEngine.Engine.DrainPairs | rgbd_capture/core.py:248-272 | head-of-line draining: break, drop with a reason that becomes the last error, abort, or write a frame |
| CaptureEngine.Engine.EmitFront | rgbd_capture/core.py:265-272 | a made frame leaves the queue, its seven messages enter the log in order, it is counted, and first and last frame time and wall time are noted |
| CaptureEngine.Engine.WriteGroup | rgbd_capture/core.py:267-268 | the seven messages of a frame, each at the colour stamp |
| RgbdPairing.Nearest | rgbd_capture/core.py:219-220 | the index found is one of the nearest and every earlier image is farther |
| RgbdPairing.AssociateKeeps | rgbd_capture/core.py:213-240 | the pairing loop pairs only within the slop, and whatever it drops is out of reach of everything waiting or dropped on the other side and of every later stamp |
| RgbdPairingRuns.PairingIsComplete | rgbd_capture/core.py:178-183 | in every run of arrivals each image is paired, dropped, lost to a full buffer or queued, exactly once, and an image that was dropped never had a partner within the slop, then or later, that was not paired or lost |
| RgbdPairingRuns.SpacedIsExact | rgbd_capture/core.py:213-240 | if stamps in each stream are more than twice the slop apart and no buffer overflows, exactly the pairs within the slop are made |
| RgbdConfluence.PairingIsConfluent | rgbd_capture/core.py:213-240 | under the same condition any two interleavings of the same streams make the same pairs in the same order |
| RateLimiter.PhaseGrid | rgbd_capture/core.py:227-233 | a pair is let through exactly when it is the first of its cell of the grid of periods anchored at the first pair |
| RateLimiter.NoDrift | rgbd_capture/core.py:227-233 | the n-th pair let through is at least n periods after the first, over any run |
| OdometryWindow.BracketHolds | rgbd_capture/core.py:276-282 | a bracket is found exactly for times from the first to the last of at least two stamps, and it meets what interpolate demands |
| OdometryWindow.SuffixAgreesIff | rgbd_capture/core.py:276-283 | a shortened deque finds the bracket of the full history exactly when nothing was dropped, or the time is after its first stamp, or before all history |
| OdometryWindow.WindowAgrees | rgbd_capture/core.py:188-192 | below the cap the trimmed deque finds the bracket of the full history for every time no older than wait + 2 s before the newest stamp |
| OdometryWindow.WindowIsBounded | rgbd_capture/core.py:190-192 | the deque never holds more than 2000 samples |
| RgbdMeaning.TargetIff | rgbd_capture/core.py:276 | the query time is the stamp plus the offset rounded to the nearest nanosecond, ties to even |
| RgbdMeaning.InterpolatedIff | rgbd_capture/core.py:80-88 | interpolation succeeds exactly between two samples that are poses, with the fraction whose product with their distance is the time since the earlier one |
| RgbdMeaning.BetweenEnds | rgbd_capture/core.py:80-88 | that fraction lies between 0 and 1, is 0 exactly at the earlier sample and 1 exactly at the later |
| RgbdMeaning.PeriodMeans | rgbd_capture/core.py:230 | the period is the largest whole number of nanoseconds that the rate allows |
| RgbdOutcomes.PairDecided | rgbd_capture/core.py:274-325 | every outcome of a pair exactly, by what the engine holds: which of the late reasons, invalid, aborted, or a frame all of whose fields are accounted for |
| RgbdFrames.FramesAreTrue | rgbd_capture/core.py:161-325 | every frame of every session, before and after the final drain: its images came in and are no farther apart than the slop, its samples are neighbours in the odometry recorded before it and hold the query between them, its pose is that of the interpolated body pose times the extrinsic, its calibrations are the latest in reach of the last 240, its extrinsic is that of the transforms sent last, and its seven messages stand together in the log |
| RgbdDrains.DrainIsFair | rgbd_capture/core.py:248-272 | a drain turns each pair in order into a frame, or loses it for a reason that holds and, if what it lacks may still come, only after its wait or at the end; the first pair left lacks such a thing; an abort means that the extrinsic moved |
| RgbdDrains.CallsAreFair | rgbd_capture/core.py:161-272 | so does every draining call of every session |
| RgbdInput.RunHeard | rgbd_capture/core.py:161-211 | in every session: messages, repetitions and skipped numbers are counted per topic, the engine remembers the last new stamp and number, the raw part of the log is what came in at its time, odometry without repetitions, and static messages list the transforms sent so far, the last of each child |
| RgbdInput.SessionTakes | rgbd_capture/core.py:161-211 | a message aborts before draining exactly when its stamp is not positive or goes back, its frames are not the configured ones, its pose is none, or one of its transforms is invalid; the drain follows every other message that concerns the frames and repeats no stamp |
| RgbdGroup.BestInfo | rgbd_capture/core.py:242-246 | the calibration chosen is the latest not after the bound, and there is one exactly when some calibration is not after it |
| RgbdRuns.RunSound | rgbd_capture/core.py:161-272 | at every non-aborting step of every session the ledger holds and frames, waiting pairs and queued images are in strictly increasing order |
| RgbdRuns.SessionIsAccounted | rgbd_capture/core.py:161-272 | received is duplicates + paired + unpaired + queued per image topic, paired is filtered + frames + drops + waiting, frames are numbered 0, 1, 2, ... and their stamps strictly increase |
| RgbdRuns.FinalDrainEmpties | rgbd_capture/core.py:248-264 | after the final drain nothing waits, and every pair was filtered, written or dropped |
| RgbdWaiting.RunAged | rgbd_capture/core.py:248-258 | with a wall clock that does not go back, whatever a non-final drain leaves waiting has waited less than the limit |
| RgbdRefinement.SessionFollows | rgbd_capture/core.py:161-240 | in every session the queues, pairs, losses and due time of the engine are those of the pairing desk on the new images followed by the rate limiter |
| RgbdRefinement.SessionPairingIsComplete | rgbd_capture/core.py:161-240 | hence completeness of pairing holds of every session |
| RgbdRefinement.SessionsAreConfluent | rgbd_capture/core.py:161-240 | two sessions with the same spaced images in each stream and no overflow, however interleaved and whatever the other messages, wall clocks and library: the same pairs in the same order, and the rate limit lets the same ones through |
| RgbdRefinement.FramesKeepTheRate | rgbd_capture/core.py:227-234 | over any session the n-th frame is at least n periods after the first pair |
| RgbdSession.SessionBracketAgrees | rgbd_capture/core.py:274-285 | in any session, below the cap, the lookup in the deque is the lookup in all odometry ever recorded |
| RgbdSession.RunRecorded | rgbd_capture/core.py:248-325 | at every step the log holds exactly the frames, the recorded odometry ends with the deque, replaying the recorded static transforms gives the engine buffer, every frame passes the checks of the validator but the one against the final transforms, and from frame to frame the extrinsic stays within the engine tolerance |
| RgbdValidator.ParseGroups | rgbd_capture/capture.py:292-309 | the loop of frame_groups computes FrameGroups, refusals included |
| RgbdValidator.TabulateOdometry | rgbd_capture/capture.py:337-344 | the odometry loop of check_bag: its table, or refusal at the first bad message |
| RgbdValidator.CheckAllFrames | rgbd_capture/capture.py:367-403 | the frame loop of check_bag: all frames pass with their running index and previous stamp |
| RgbdValidator.CountRaws | rgbd_capture/capture.py:333-336 | the raw topics: some were counted, and the merged bag holds as many messages of each |
| RgbdValidator.Validate | rgbd_capture/capture.py:312-414 | check_bag, from schema version, report status and raw counts to the last frame, accepts exactly what CheckBag does |
| RgbdVerdict.FrameGroupsRoundTrip | rgbd_capture/capture.py:292-309 | reading back what was written yields exactly the frames written |
| RgbdParse.FrameGroupsIff | rgbd_capture/capture.py:292-309 | whatever messages are read: they give these frames exactly when they are, frame after frame, seven different parts of one time, neighbours differing in time |
| RgbdReading.ReadIsStable | rgbd_capture/capture.py:292-309 | reading a bag gives the chosen messages and no others in the order of time, those of one time as they stand |
| RgbdReading.OdomTableIff | rgbd_capture/capture.py:337-344 | the odometry of a bag is accepted exactly when its stamps increase from 0 on and every message has the configured frames and a pose; the table then holds each message under its stamp and nothing else |
| RgbdReading.ReplayedIsLast | rgbd_capture/capture.py:349-357 | the static buffer holds for each child frame the transform sent last |
| RgbdAccepted.GoodFrameIff | rgbd_capture/capture.py:367-403 | the checks on one frame hold exactly when it is numbered, stamped, named, measured and placed as annotated, and every entry of the camera pose is near that of the interpolated recorded odometry times the extrinsic |
| RgbdAccepted.AcceptedIff | rgbd_capture/capture.py:322-414 | any bag is accepted with n frames exactly when its messages hold: one session and one clean report of n frames, complete raw counts, good odometry, the world-to-body edge, static transforms that end with an extrinsic, and n frames with increasing stamps, each of them good |
| RgbdVerdict.ProducerAndValidatorAgree | rgbd_capture/capture.py:292-415 | a session that was not aborted, with arrivals in order: the validator parses back exactly the written frames, and accepts the bag exactly when there is a frame, static transforms and the world-to-body edge (always a pose) were recorded, the final extrinsic is close to that of every frame (allclose with absolute tolerance 1e-7), and raw sensors, if merged in, are counted and complete; all other comparisons hold within their own tolerances |
| RgbdExtrinsics.ConstantIsAccepted | rgbd_capture/capture.py:345-413 | a session in which no call changes the extrinsic that the static transforms give: every frame agrees with it, and the bag is accepted exactly when it has a frame, static transforms and the world-to-body edge, and its raw sensors, if any, are complete |
| RgbdCreep.CreepIsRefused | rgbd_capture/core.py:291-299 | a session of fourteen messages and three frames in which the extrinsic creeps: the engine, which compares it with the one before only, writes every frame and is not aborted, the bag lacks nothing else, and the validator refuses it |
| RgbdReport.SessionIsReported | rgbd_capture/core.py:311-319 | in every session, at every call: first and last frame time are those of the first and last frame written, the largest age is that of the oldest odometry recorded, and an error is named exactly when a pair was rejected |
| CaptureQueue.StepAccounted | rgbd_capture/capture.py:121-140 | each step keeps the byte count equal to queued + in flight + taken but not subtracted, between 0 and 128 MiB |
| CaptureQueue.CaptureQueueIsExact | rgbd_capture/capture.py:121-203 | the same in every interleaving of the main loop; events are ingested in the order they were put; an admitted message that is neither in flight nor put has raised the alarm or is about to |
| CaptureQueue.QuietMeansIngested | rgbd_capture/capture.py:121-203 | at rest without alarm everything admitted was ingested and no byte is reserved |
| CaptureAlarm.AlarmIff | rgbd_capture/capture.py:121-180 | in every interleaving the alarm is raised, or about to be, exactly when some callback met outstanding bytes plus its own above 128 MiB, or a queue of 512 events |
| CaptureAlarm.EverythingIsCaptured | rgbd_capture/capture.py:121-203 | a run in which no callback met a limit never alarms, and at rest has ingested every message offered |
| PoolAllocator.MallocSound | src/Livox-SDK2/3rdparty/rapidjson/allocators.h:208-220 | Malloc keeps chunks apart and blocks disjoint, inside their chunks, making up the used part in full |
| PoolAllocator.ReallocSound | src/Livox-SDK2/3rdparty/rapidjson/allocators.h:223-253 | so does Realloc, in place, unchanged or moved |
| PoolAllocator.GrowSound | src/Livox-SDK2/3rdparty/rapidjson/allocators.h:236-245 | growing in place happens to the last block of the head chunk only, claimed in full |
| PoolAllocator.ReallocKeepsContents | src/Livox-SDK2/3rdparty/rapidjson/allocators.h:247-253 | a result is a block of at least the new size that begins with the old contents, and no block handed out before loses a byte |
| PoolAllocator.ClearSound | src/Livox-SDK2/3rdparty/rapidjson/allocators.h:178-186 | Clear leaves at most the supplied buffer, emptied |
| PoolAnswers.MallocAnswers | src/Livox-SDK2/3rdparty/rapidjson/allocators.h:208-220 | Malloc fails exactly for no bytes or when a chunk is needed and refused, and then changes nothing; otherwise the block is behind all others in the head chunk, or alone in a new chunk no smaller than configured, and rounded up to eight |
| PoolAnswers.ReallocAnswers | src/Livox-SDK2/3rdparty/rapidjson/allocators.h:223-253 | Realloc leaves a block that is large enough, grows the last one of the head chunk in place by the difference when there is room, and otherwise answers like Malloc with the old block left as it was |
| PoolAnswers.ReallocOfNothing | src/Livox-SDK2/3rdparty/rapidjson/allocators.h:223-226 | from null it is Malloc, to no bytes it returns null and changes nothing |
| PoolRuns.RunSound | src/Livox-SDK2/3rdparty/rapidjson/allocators.h:178-281 | after any sequence of calls: blocks since the last Clear are disjoint and inside their chunks, and Size(), the sum of their aligned lengths, is at most Capacity() |
| PoolList.MemoryPoolAllocator.constructor | src/Livox-SDK2/3rdparty/rapidjson/allocators.h:133-139 | an empty pool |
| PoolList.MemoryPoolAllocator.WithBuffer | src/Livox-SDK2/3rdparty/rapidjson/allocators.h:153-167 | a pool whose one chunk is the supplied buffer |
| PoolList.MemoryPoolAllocator.Size | src/Livox-SDK2/3rdparty/rapidjson/allocators.h:202-206 | the walk over the linked list adds up all sizes |
| PoolList.MemoryPoolAllocator.Capacity | src/Livox-SDK2/3rdparty/rapidjson/allocators.h:191-196 | and all capacities |
| PoolList.MemoryPoolAllocator.AddNewChunk | src/Livox-SDK2/3rdparty/rapidjson/allocators.h:268-281 | a granted chunk becomes the head of the list, a refusal changes nothing |
| PoolList.MemoryPoolAllocator.Allocate | src/Livox-SDK2/3rdparty/rapidjson/allocators.h:208-220 | Malloc on the linked list does to pool and blocks what the function says |
| PoolList.MemoryPoolAllocator.Reallocate | src/Livox-SDK2/3rdparty/rapidjson/allocators.h:223-253 | Realloc on the linked list and the bytes does what the function says |
| PoolList.MemoryPoolAllocator.Copy | src/Livox-SDK2/3rdparty/rapidjson/allocators.h:249 | memcpy between regions that do not overlap |
| PoolList.MemoryPoolAllocator.Release | src/Livox-SDK2/3rdparty/rapidjson/allocators.h:178-186 | Clear unlinks down to the supplied buffer and empties it |
| SaxRoundTrip.FeedEvents | src/Livox-SDK2/3rdparty/rapidjson/document.h:2286-2331 | from any stack the events of a value push exactly one value: the same shape and order, every leaf made anew |
| SaxRoundTrip.NumberSurvivesIff | src/Livox-SDK2/3rdparty/rapidjson/document.h:858-905 | all eight bytes and all flags of a number survive exactly when one of the five numeric constructors makes it |
| SaxRoundTrip.SaxRoundTripIff | src/Livox-SDK2/3rdparty/rapidjson/document.h:2286-2331 | feeding Accept(v) to a document on any stack leaves that stack plus one value, equal to v exactly when every number is as a constructor makes it and every string is stored as its length demands |
| SaxRoundTrip.EventsDetermineTheValue | src/Livox-SDK2/3rdparty/rapidjson/document.h:2286-2331 | well-made values that send the same events are equal |
| SaxRoundTrip.DefaultNumberBecomesDouble | src/Livox-SDK2/3rdparty/rapidjson/document.h:770-774 | a number of the default kind is not such a number and comes back as the double 0 |
| SaxRoundTrip.ConstructorEvents | src/Livox-SDK2/3rdparty/rapidjson/document.h:2322-2327 | which event each of the five numeric constructors sends, by its value |
| SaxHandler.GenericDocument.constructor | src/Livox-SDK2/3rdparty/rapidjson/document.h:2626-2636 | a document with an empty stack and a null root |
| SaxHandler.GenericDocument.Push | src/Livox-SDK2/3rdparty/rapidjson/document.h:2926-2972 | the handlers that push one value or an empty container |
| SaxHandler.GenericDocument.EndObject | src/Livox-SDK2/3rdparty/rapidjson/document.h:2982-2988 | pops the pairs and puts them into the object below, in order |
| SaxHandler.GenericDocument.EndArray | src/Livox-SDK2/3rdparty/rapidjson/document.h:2995-3000 | pops the elements and puts them into the array below, in order |
| SaxHandler.GenericDocument.Populate | src/Livox-SDK2/3rdparty/rapidjson/document.h:2715-2725 | exactly one root remains, a deep copy, equal to the source exactly when that is well made |
| SaxTraversal.Handler.Take | src/Livox-SDK2/3rdparty/rapidjson/document.h:2286-2331 | a handler that decides by what it has seen whether to take one more event |
| SaxTraversal.Accept | src/Livox-SDK2/3rdparty/rapidjson/document.h:2286-2331 | any handler is sent the events of the value in order, up to and including the first one it refuses, and the result says whether it refused none |
| SaxTraversal.AcceptArray | src/Livox-SDK2/3rdparty/rapidjson/document.h:2310-2314 | the loop over the elements with its early return |
| SaxTraversal.AcceptObject | src/Livox-SDK2/3rdparty/rapidjson/document.h:2296-2308 | the loop over the members with its early return |
| SaxTraversal.AcceptMember | src/Livox-SDK2/3rdparty/rapidjson/document.h:2300-2305 | a key and then its value, unless the key is refused |
| SaxTraversal.SentUntilRefused | src/Livox-SDK2/3rdparty/rapidjson/document.h:2286-2331 | what such a handler has seen is the longest prefix of willingly taken events, and the refused event if there is one |
| SaxHandler.Accept | src/Livox-SDK2/3rdparty/rapidjson/document.h:2286-2331 | with the document as handler, which refuses nothing, the stack gains exactly the value |
| ShiftRegister.SerialAtOnce | src/Livox-SDK2/3rdparty/FastCRC/FastCRCsw.cpp:161-165 | the bitwise register takes a word at once as if bit by bit |
| ShiftRegister.SerialConcat | src/Livox-SDK2/3rdparty/FastCRC/FastCRCsw.cpp:173-199 | the register after two stretches is the register of the second from that of the first |
| FastCrc.TableIsLinear | src/Livox-SDK2/3rdparty/FastCRC/FastCRCsw.cpp:161-165 | the lookup table of the recurrence is linear over exclusive or |
| FastCrc.SlicingByFour | src/Livox-SDK2/3rdparty/FastCRC/FastCRCsw.cpp:161-165 | the four-table step with a 32-bit load equals four byte steps, for 16- and 32-bit registers |
| FastCrc.SmallTableAgrees | src/Livox-SDK2/3rdparty/FastCRC/FastCRCsw.cpp:427-437 | the one-table form for 32 bits equals the same four byte steps |
| FastCrc.FeedIsSerial | src/Livox-SDK2/3rdparty/FastCRC/FastCRCsw.cpp:173-180 | one table byte step is eight steps of the bitwise register, on plain registers in their byte-swapped state too |
| FastCrc.FoldIsSerial | src/Livox-SDK2/3rdparty/FastCRC/FastCRCsw.cpp:173-199 | so is any number of bytes |
| CrcUpdates.FinishIsValue | src/Livox-SDK2/3rdparty/FastCRC/FastCRCsw.cpp:58-69 | REV16, REV32 and the complement turn the stored state into the number the standard defines |
| CrcUpdates.Checksum.Update | src/Livox-SDK2/3rdparty/FastCRC/FastCRCsw.cpp:173-199 | for every length, address alignment and table size, one update call advances the bitwise register over exactly the bytes given and returns its value |
| CrcUpdates.Checksum.Compute | src/Livox-SDK2/3rdparty/FastCRC/FastCRCsw.cpp:481-487 | one whole call returns the polynomial CRC of the algorithm |
| CrcUpdates.Checksum.OneByte | src/Livox-SDK2/3rdparty/FastCRC/FastCRCsw.cpp:177-180 | one byte of the slow loops |
| CrcUpdates.Checksum.FourBytes | src/Livox-SDK2/3rdparty/FastCRC/FastCRCsw.cpp:455-468 | one 32-bit load of the fast loop, with either table size |
| CrcUpdates.Checksum.SixteenBytes | src/Livox-SDK2/3rdparty/FastCRC/FastCRCsw.cpp:182-189 | the body of the fast loop |
| CrcUpdates.Checksum8.Update | src/Livox-SDK2/3rdparty/FastCRC/FastCRCsw.cpp:115-124 | the byte loop of the 7- and 8-bit checksums |
| CrcUpdates.Checksum8.Compute | src/Livox-SDK2/3rdparty/FastCRC/FastCRCsw.cpp:126-131 | smbus and maxim are the CRCs their comments name |
| CrcUpdates.Checksum8.Compute7 | src/Livox-SDK2/3rdparty/FastCRC/FastCRCsw.cpp:85-101 | crc7, kept in the upper seven bits of a byte, is the 7-bit CRC |
| CrcUpdates.Checksum.ComputeParts | src/Livox-SDK2/3rdparty/FastCRC/FastCRCsw.cpp:173-199 | a loop over the parts of a message, here and there in memory, that starts over on the first and carries on from call to call ends with the CRC of the parts joined |
| CrcProperties.FrameCheck | src/Livox-SDK2/3rdparty/FastCRC/FastCRCsw.cpp:376-410 | over any register, appending a check leaves the residue exactly when it is the complemented register |
| CrcProperties.GoodFrame | src/Livox-SDK2/3rdparty/FastCRC/FastCRCsw.cpp:376-410 | a receiver that runs x25 or crc32 over message and check ends in one constant residue exactly when the check is the CRC of the message (RFC 1662, appendices C.2 and C.3) |
| CrcResidues.GoodFinalValues | src/Livox-SDK2/3rdparty/FastCRC/FastCRCsw.cpp:405-487 | that residue is 0xf0b8 for x25 and 0xdebb20e3 for crc32, the good final values of RFC 1662 |
| CrcProperties.FrameAlgorithms | src/Livox-SDK2/3rdparty/FastCRC/FastCRCsw.cpp:405-487 | x25 and crc32 are algorithms that statement covers |
| CrcProperties.EntryPoints | src/Livox-SDK2/3rdparty/FastCRC/FastCRCsw.cpp:126-540 | ccitt, mcrf4xx, modbus, kermit, xmodem, x25, crc32 and cksum are algorithms that Update and Compute take, smbus and maxim those of the 8-bit class, and none of their registers merges two states |
| CrcChecks.Checks8 | src/Livox-SDK2/3rdparty/FastCRC/FastCRCsw.cpp:128-151 | smbus and maxim of "123456789" are the check values of their comments |
| CrcChecks.Check7 | src/Livox-SDK2/3rdparty/FastCRC/FastCRCsw.cpp:98 | so is crc7 |
| CrcChecks.Checks16 | src/Livox-SDK2/3rdparty/FastCRC/FastCRCsw.cpp:202-365 | so are ccitt, xmodem, kermit and modbus |
| CrcChecks.ChecksX25 | src/Livox-SDK2/3rdparty/FastCRC/FastCRCsw.cpp:243-407 | so is x25; mcrf4xx as coded gives the check value of kermit and would give its own from its documented start |
| CrcChecks.Checks32 | src/Livox-SDK2/3rdparty/FastCRC/FastCRCsw.cpp:483-536 | so are crc32 and cksum |
| CrcProperties.Mcrf4xxIsKermit | src/Livox-SDK2/3rdparty/FastCRC/FastCRCsw.cpp:241-246 | as coded mcrf4xx equals kermit on every message and on none the CRC its comment documents |
| WakeUp.StepKeeps | src/livox_ros_driver2/src/lds.cpp:170-196 | every step of producers and consumer keeps: a sampling lidar with packets has a pending signal, a scan still to reach it, or a producer that will see to it |
| WakeUp.NoLostWakeUp | src/livox_ros_driver2/src/lddc.cpp:118-177 | in every interleaving: no producer inside a push and the consumer blocked at count 0 means all sampling queues are empty |
| WakeUp.DrainedIffSampling | src/livox_ros_driver2/src/lddc.cpp:118-137 | a lidar is empty at every rest of every run exactly when it is sampling |
| WakeUp.SignalsAreBounded | src/livox_ros_driver2/src/lds.cpp:170-196 | in every run the count is at most the number of producers, and the packets stored are those taken and those queued |
| WakeUp.SignalsAreCalledFor | src/livox_ros_driver2/src/lds.cpp:170-196 | in every run a signal is given only by a producer that, in the same push, found a packet in its queue and then the count exhausted |

## Left out

- Synchroniser.Globals.SyncPackages: the single-lidar branch is not modelled; it is the same loop on one queue.
- ImuProcess.ImuProcessor.ImuInit: the filter is known by the steps, means and noise it is given; the numbers of its initial covariance and the constant bias noises are part of the library, and the measurement update between bundles is not modelled.
- Undistortion.Undistort: the compensation formula is a parameter, as SO(3) `Exp` and the filter state are not modelled; velocity, acceleration and rotation of a pose are functions of the filter steps so far.
- FilterTime.FilterTimeTiles: before the second propagated bundle only the sign of the steps is proved, since the first one starts from an uninitialised end time.
- Clocks of the node: the time of arrival of messages at the callbacks is arbitrary; locks and the condition variable of the callbacks are not modelled, each callback and each poll is one event.
- CaptureEngine.Engine.DrainPairs: the text of the error of an invalid image is one reason, not the words of the exception.
- RgbdGroup.BestInfo: `_info` is modelled with exact slop; the queues of 240 calibrations are kept, the copies made of messages are values.
- Image checks: `validate_rgbd` and `image_array` are one function of everything in the messages but `seq` and `stamp`; JSON text, ROS serialisation and the bag file format are not modelled.
- RgbdVerdict.ProducerAndValidatorAgree: a rigid motion is assumed to come back from its pose message `allclose` with absolute tolerance 1e-6, records of equal time are read in the order written, and raw sensors have topics that the engine does not write itself.
- CaptureQueue.CaptureQueueIsExact: covers the main loop; the emptying of the queue after unsubscribing and the disk, signal and timeout handling of `record` are not modelled.
- PoolAllocator.MallocSound: sizes are unbounded, so the wrap-around of a request within a few bytes of 2^64 is not modelled; the base allocator answers with a region of its own or refuses.
- PoolAllocator.GrowSound: reading the header through a null chunk list is excluded, since a non-null pointer must be a block of the pool.
- SaxRoundTrip.SaxRoundTripIff: capacities of arrays and objects, the address of a constant string, and running out of memory are not modelled; a double is its eight bytes.
- CrcUpdates.Checksum.Update: the entries of the shipped tables are taken to be the values of the recurrence; words are read little-endian. Outside Arduino `pgm_read_dword` reads an `unsigned long`, eight bytes on 64-bit Linux, so the look-up at the last index reads past its table; the low four bytes, and with them every result, are as modelled, the extra read is not.
- WakeUp.NoLostWakeUp: the exit request, the ring-buffer indices and the third transfer format, which under ROS 2 publishes nothing and never empties a queue, are not modelled; connect states do not change during a run.
- GenericValue editing and comparison, the JSON text reader and writer, and FastCRChw.cpp: not part of the model.
- collect_data_v2.py: its synchroniser and depth buffer would only add simpler members of the same kind.
- Map building, plane fitting, publishing, device management, configuration and launch files: not part of the model.
