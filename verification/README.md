# K4A_OpenVR bone provider — a Dafny model

This project models the bone provider of K4A_OpenVR, a virtual-tracker
driver. It reads body-tracking skeletons from an Azure Kinect and drives
eight virtual trackers in an OpenVR runtime. The eight trackers are hip,
right leg, left leg, chest, right elbow, left elbow, right knee and left knee.

The model covers four parts:

- **The capture loop** (`ProcessBones` in `src/provider/bone_provider.cpp`).
  One iteration is a pure function `Tracking.Step`. It takes a frame outcome
  and the shared calibration record, and returns the new loop state, the new
  calibration record, and a trace of events. A frame outcome is one of:
  capture failed, enqueue failed, pop failed, or popped with a list of bodies.
  Events are publishes to the runtime, tracker smoothing changes, and
  releases of body frames and captures.
- **The calibration broadcast** (`UpdateCalibration`).
- **The provider object** (module `Provider`):
  - `setup_bone`;
  - `Stop`;
  - the prologue of the tracking thread, which brings the trackers online and
    seeds the loop.
- **The filter bank** (`src/provider/bone_filter.h` and `bone_filter.cpp`):
  seven scalar Kalman filters per joint, and the `normalize` helper.

Modules, one file each:

- `Wrappers`: `Option`.
- `Vectors`: 3-vectors and quaternions over `real`.
- `Skeletons`: sensor joints, the skeleton and the frame outcome.
- `DriverPoses`: the runtime pose record, the eight bones, events and publish orders.
- `Calibration`: the shared record and `UpdateCalibration`.
- `BoneFilters`: the filter bank.
- `Tracking`: the loop step.
- `TrackingProperties`: lemmas that relate several parts of the step.
- `Provider`: the provider object.

Source behaviour the model keeps as written:

- `num_bodies` holds the truth value of `count != 0` (line 350). So the
  loop over bodies runs once and only ever reads body 0. See
  `TrackingProperties.FrameProcessesFirstBodyOnly`.
- The indentation at lines 359-366 is misleading. Only `UpdateCalibration`
  is guarded by `update`. The smoothing choice and the reset of
  `vectorChange` run on every frame that has a body.
- The motion measure `vectorChange` adds signed velocity components, not
  magnitudes. Opposite moves cancel: see
  `TrackingProperties.OpposingMotionCancels`.
- The go-online announcement at lines 302-309 sends the chest, elbow and
  knee poses to the hip and leg devices.
- The loop works on stack copies of the member poses and never writes them
  back. A later `Stop` therefore publishes the poses the provider went
  online with. See `Provider.StopAfterLaunch`.
- The auto-smoothing baseline is `max(vectorChange, maxChange - maxChange * 0.98)`,
  exactly as written. See `TrackingProperties.TrackedFrameBaseline` and
  `TrackingProperties.StillnessDecaysBaseline`.
- The reset test at line 365 reads the previous frame's `vectorChange`,
  because line 366 zeroes it before the loop over bodies accumulates the
  new one. See `Tracking.ChooseSmoothing`.
- The first frame with a body clears the writer's `autoSmooth` flag in the
  shared record (line 354), not only the loop's ramp. See
  `TrackingProperties.FirstBodyFrameCalibrates`.
- Stopping a provider that is already stopped returns `m_error`
  (lines 154, 158-163). After a successful stop that is `NO_ERROR`, so the
  second stop looks like a success. See `Provider.StopTwice`.
- `ProcessBones` never calls `bone_filter`, so the filter bank is modelled
  on its own.

Joint ids follow the numbering of the Azure Kinect Body Tracking SDK:

| joint | id |
|---|---|
| pelvis | 0 |
| spine chest | 2 |
| left elbow | 6 |
| right elbow | 13 |
| left knee | 19 |
| left ankle | 20 |
| left foot | 21 |
| right knee | 23 |
| right ankle | 24 |
| right foot | 25 |

There are 32 joints in all. The SDK header is not part of this model.

## Model

| member | source | states |
|---|---|---|
| Calibration.UpdateCalibration | src/provider/bone_provider.cpp:166-258 | every one of the eight poses gets the record's translation and rotation as its world-from-driver transform; no other pose field changes; the returned record is the input with `update` cleared |
| Calibration.UpdateCalibrationIdempotent | src/provider/bone_provider.cpp:166-258 | broadcasting the calibration a second time changes neither the poses nor the record |
| Tracking.TrackBody | src/provider/bone_provider.cpp:396-500 | the hip is marked valid, with rotation (w, z, x, y) and position (z, x, y)/1000 of the pelvis joint and its velocity kept; each leg is placed at (foot + ankle)/2000 with the ankle's rotation and velocity (new - old)/0.08; the motion is the signed sum of both leg velocity components; with the extended set on, the chest is placed like the hip, the elbows move with velocity gain 1.2 and the knees with gain 1; with it off those five poses are unchanged |
| Tracking.ProcessBody | src/provider/bone_provider.cpp:367-519 | one body only publishes and keeps `firstRun` and the ramp; a failed skeleton only clears `poseIsValid` on all eight poses and leaves motion and baseline alone; a tracked one leaves the poses exactly as `TrackBody` places them, adds its leg motion to `vectorChange`, and under auto-smoothing moves the baseline to the larger of the new `vectorChange` and 2% of the old baseline, otherwise keeps it; a positive baseline stays positive |
| Tracking.TrackBodyKeepsTransform | src/provider/bone_provider.cpp:396-500 | tracking a body never changes any pose's world-from-driver transform |
| Tracking.ProcessBodyKeepsTransform | src/provider/bone_provider.cpp:367-519 | neither a failed nor a tracked skeleton changes any pose's world-from-driver transform |
| Tracking.BodyFlag | src/provider/bone_provider.cpp:350 | the loop bound is 0 or 1, and is 0 exactly when the frame has no bodies |
| Tracking.BodyLoop | src/provider/bone_provider.cpp:367-520 | the loop over bodies only publishes, keeps `firstRun` and the ramp, and keeps the baseline positive |
| Tracking.Recalibrate | src/provider/bone_provider.cpp:352-360 | on the first frame with a body, `update` and `autoSmooth` are cleared and the calibration is applied whatever `update` said; later it is applied, and `update` cleared, only when `update` is set; otherwise poses and record are untouched |
| Tracking.ChooseSmoothing | src/provider/bone_provider.cpp:361-365 | without auto-smoothing the tracker gets the configured value and the ramp is unchanged; with it the ramp resets to 0 when vectorChange/maxChange exceeds the configured value and otherwise closes 45% of its distance to 1, and the ramp is what the tracker gets; a ramp in [0,1] stays in [0,1] |
| Tracking.ProcessBodyFrame | src/provider/bone_provider.cpp:350-367 | a frame with a body ends the first run, keeps the baseline positive and the loop invariant, and emits no release |
| Tracking.Step | src/provider/bone_provider.cpp:329-527 | an obtained capture is released exactly once, as the last event; a popped body frame is released exactly once, just before it; a frame without a body changes neither state nor record and emits nothing but releases; the baseline stays positive; smoothing in [0,1] is kept |
| Tracking.ReleaseFrame | src/provider/bone_provider.cpp:522-525 | the body's events are kept unchanged and in order, and the body frame and then the capture are released once each after them |
| Tracking.Run | src/provider/bone_provider.cpp:329-527 | over any sequence of frames, each optionally preceded by an outside write of the calibration record, the captures released equal the captures obtained, the body frames released equal the frames popped, and the loop invariant holds throughout |
| TrackingProperties.FrameProcessesFirstBodyOnly | src/provider/bone_provider.cpp:350-368 | a frame with bodies sets the smoothing and then processes exactly its first body |
| TrackingProperties.StepOnBody | src/provider/bone_provider.cpp:329-527 | a step on a frame with a body: the smoothing event, then the first body's publishes, then the two releases |
| TrackingProperties.StepUsesFirstBodyOnly | src/provider/bone_provider.cpp:350-370 | two frames whose first bodies agree give identical steps, whatever else they hold |
| TrackingProperties.FirstBodyFrameCalibrates | src/provider/bone_provider.cpp:352-358 | the first frame with a body clears `update` and `autoSmooth`, applies the calibration to all eight poses, sends the configured smoothing and ends the first run |
| TrackingProperties.LaterBodyFrameCalibration | src/provider/bone_provider.cpp:359-360 | after the first run the calibration is applied exactly when `update` is set; otherwise the transforms and the record are unchanged |
| TrackingProperties.SkeletonFailurePublishesAllInvalid | src/provider/bone_provider.cpp:370-389 | a failed skeleton leaves each pose as the calibration step left it except that it is now invalid, publishes all eight in frame order between the smoothing event and the releases, and leaves motion 0 and the baseline unchanged |
| TrackingProperties.TrackedBodyEffect | src/provider/bone_provider.cpp:396-501 | a tracked body marks hip and legs valid; with the extended set off, the other five poses are unchanged |
| TrackingProperties.TrackedFramePublishes | src/provider/bone_provider.cpp:504-513 | a tracked body publishes hip, right leg, left leg and, only with the extended set, chest, right elbow, left elbow, right knee, left knee, each to its own device |
| TrackingProperties.TrackedFramePoses | src/provider/bone_provider.cpp:352-501 | after a tracked frame every pose is the recalibrated pose moved by the frame's first body exactly as `TrackBody` moves it: hip and legs always, chest, elbows and knees only with the extended set on |
| TrackingProperties.TrackedFrameKeepsExtended | src/provider/bone_provider.cpp:439-501 | after a tracked frame hip and legs are valid; with the extended set off the other five poses keep everything but the calibration |
| TrackingProperties.SmoothingRamp | src/provider/bone_provider.cpp:361-366 | under auto-smoothing the ramp resets to 0 above the threshold and otherwise never decreases, and it is what the tracker gets; without auto-smoothing the ramp is unchanged and the tracker gets the configured value |
| TrackingProperties.TrackedFrameBaseline | src/provider/bone_provider.cpp:366-517 | after a tracked frame `vectorChange` is exactly the body's signed leg motion, and the baseline is the larger of that motion and 2% of the old baseline when auto-smoothing is on after the first frame, and the old baseline otherwise |
| TrackingProperties.StillnessDecaysBaseline | src/provider/bone_provider.cpp:516-517 | under auto-smoothing a tracked frame whose motion is at most 2% of the baseline leaves exactly 2% of it, so the baseline decays while the body keeps still |
| TrackingProperties.BaselineBoundsNextRatio | src/provider/bone_provider.cpp:516-517 | after a tracked frame under auto-smoothing the baseline is at least the motion and at least 2% of the old baseline, so the next reset test compares a ratio of at most 1 |
| TrackingProperties.MotionIsSignedDisplacement | src/provider/bone_provider.cpp:411-437 | the motion equals the change in the x+y+z sums of both leg positions, divided by 0.08 |
| TrackingProperties.OpposingMotionCancels | src/provider/bone_provider.cpp:419 | a leg moving along a direction whose components sum to zero, beside a still leg, has non-zero velocity yet adds no motion |
| TrackingProperties.SidestepCancels | src/provider/bone_provider.cpp:411-437 | a concrete case of the cancellation: legs last at the origin and a right foot and ankle at (40, -40, 0) mm put the right leg at (0, 0.04, -0.04) m with non-zero velocity, and the frame's motion is 0 |
| TrackingProperties.VelocityIntegratesToPosition | src/provider/bone_provider.cpp:411-416 | velocity and position agree: the old position plus 0.08 s of velocity, with the gain undone, is the new position |
| TrackingProperties.PlacedPoseRecoversJoint | src/provider/bone_provider.cpp:396-403 | the axis permutation and unit change lose nothing: the sensor joint's position and orientation are recovered from a placed pose |
| BoneFilters.Normalize | src/provider/bone_filter.h:8-15 | every component is divided by the same factor, the squared norm; the result is undefined exactly when the squared norm is 0 |
| BoneFilters.NormalizeKeepsUnit | src/provider/bone_filter.h:9-14 | a unit quaternion comes back unchanged |
| BoneFilters.NormalizeInvertsSquaredNorm | src/provider/bone_filter.h:9-14 | for squared norm s > 0 the result has squared norm 1/s |
| BoneFilters.NormalizeUnitIffInputUnit | src/provider/bone_filter.h:9-14 | the result is a unit quaternion exactly when the input already was one |
| BoneFilters.NewBoneFilter | src/provider/bone_filter.h:33-39 | x, y, z are identical with tuning (0.18, 0.1, 0.014); qx, qy, qz are identical with (0.001, 0.001, 0.014); qw has (0.001, 0.1, 0.01); the three groups differ |
| BoneFilters.GetNextPos | src/provider/bone_filter.cpp:3-11 | each of x, y, z, qx, qy, qz is advanced once on its own raw component and its estimate becomes that output component; qw is neither advanced nor written, and the output's w is left unassigned |
| BoneFilters.GetNextPosChannelsIndependent | src/provider/bone_filter.cpp:5-10 | no cross-axis mixing: a channel's new filter and output depend only on that channel's filter and raw component |
| BoneFilters.SetEstimateError | src/provider/bone_filter.cpp:14-18 | x, y, z get the same estimate error; qw, qx, qy, qz are untouched |
| BoneFilters.SetMeasurementError | src/provider/bone_filter.cpp:20-24 | x, y, z get the same measurement error; qw, qx, qy, qz are untouched |
| BoneFilters.SetProcessNoise | src/provider/bone_filter.cpp:26-30 | x, y, z get the same process noise; qw, qx, qy, qz are untouched |
| BoneFilters.SettersLeaveOrientationOutputs | src/provider/bone_filter.cpp:14-30 | after any reconfiguration the orientation channels filter exactly as before |
| BoneFilters.SettersSynchronisePositions | src/provider/bone_filter.cpp:14-30 | after the setters the three position filters agree on all three tuning values |
| DriverPoses.OrdersCoverAllBones | src/provider/bone_provider.cpp:143-150 | every bone appears in the frame order and the stop order; the core order holds exactly the non-extended bones |
| DriverPoses.StopOrderReordersFrameOrder | src/provider/bone_provider.cpp:143-150 | the stop order is a permutation of the frame order: the same eight bones, each once |
| Provider.BoneForJoint | src/provider/bone_provider.cpp:576-615 | pelvis, right foot, left foot, spine chest, right elbow, left elbow and right knee each select their own slot; every other joint id selects the left knee |
| Provider.JointFor | src/provider/bone_provider.cpp:576-615 | the joint each bone is registered with selects that bone again |
| Provider.JointForInjective | src/provider/bone_provider.cpp:576-615 | distinct bones are registered with distinct joints |
| Provider.SetupBone | src/provider/bone_provider.cpp:533-617 | the selected slot gets the handle and the zero-initialised default pose; every other slot and the device state are untouched |
| Provider.SetupBoneLastWins | src/provider/bone_provider.cpp:576-615 | setting up the same joint twice keeps only the second handle |
| Provider.SetupAllBindsListed | src/provider/bone_provider.cpp:533-617 | setting up a list of bones binds and resets exactly the listed ones |
| Provider.SetupEveryBoneBindsAll | src/provider/bone_provider.cpp:263-266 | setting up all eight bones with real handles meets the tracking thread's wait condition and leaves every pose at the default |
| Provider.Stop | src/provider/bone_provider.cpp:117-163 | only when open and online: clears online, marks all eight poses disconnected and invalid, publishes them in the order hip, right leg, left leg, right elbow, left elbow, right knee, left knee, chest, and sets and returns no-error; otherwise nothing changes, nothing is published and the stored error is returned |
| Provider.StopTwice | src/provider/bone_provider.cpp:117-163 | a second stop publishes nothing, changes nothing and returns what the first returned |
| Provider.StopAnnouncesEveryBone | src/provider/bone_provider.cpp:143-150 | every bone's device receives that bone's pose, now offline |
| Provider.StopAnnouncesEachBoneOnce | src/provider/bone_provider.cpp:143-150 | a bone with a handle of its own is published to at most once |
| Provider.Launch | src/provider/bone_provider.cpp:285-327 | without a body tracker nothing happens and no loop runs; otherwise the tracker smoothing is set to 0.025; a provider not yet online goes online, marks every pose connected and announces the eight poses to the devices hip, rleg, lleg, hip, rleg, lleg, rleg, lleg; the loop starts from copies of the member poses with ramp 0, baseline 1 and `firstRun` set |
| Provider.GoOnlineReachesOnlyCoreDevices | src/provider/bone_provider.cpp:302-309 | every go-online publish goes to the hip, right-leg or left-leg device |
| Provider.GoOnlineSkipsExtendedDevices | src/provider/bone_provider.cpp:305-309 | a chest, elbow or knee tracker with a handle of its own is never told it is connected |
| Provider.GoOnlineSendsChestToHip | src/provider/bone_provider.cpp:305 | the hip device is sent the chest pose |
| Provider.StopAfterLaunch | src/provider/bone_provider.cpp:314-322 | a stop after a launch publishes the poses the provider went online with, each now offline, whatever the loop did |

## Left out

- Shared-memory creation and mapping (lines 27-75): OS I/O. The calibration record is an input, and the updated record is an output.
- Device lifecycle: device open, calibration, `Configure`, `Start`, camera start and stop, tracker destroy, constructor and destructor. These are device I/O. Their per-frame effect is the frame-outcome input, and tracker creation is a boolean input of `Provider.Launch`.
- Threads: thread creation and join, and the cross-thread `m_online` flag. `Tracking.Run` takes a finite list of frames; it does not model the loop ending on another thread's write.
- Tracking.Step: reads one snapshot of the shared calibration record per iteration, and `Tracking.Run` lets the writer replace the record only between iterations. The source re-reads the record at lines 173-180, 359, 361, 362, 364, 365, 439, 507 and 516, so a write in the middle of an iteration can mix old and new fields. A write landing after `UpdateCalibration` reads the record (lines 173-180) and before it clears `update` (line 258) is lost. Neither interleaving is modelled: the record is shared memory with no lock, and modelling it needs a model of the other process.
- The 33 ms wait for bound device handles (lines 263-266): it becomes the precondition `AllBound` on `Provider.Launch` and `Tracking.Step`.
- OpenVR pose updates: each becomes a `Publish(device, pose)` event.
- Driver-pose fields the provider never reads or writes are not part of the model.
- Logging callbacks: I/O.
- The wall clock (`time`, `difftime`): its result is never used.
- `rotationChange` and `last_timestamp`: declared and never used.
- `SimpleKalmanFilter` is not part of this model. Its update is a caller-supplied function, and its setters are field updates on the tuning.
- Floating point: arithmetic is over `real`. float/double rounding is not modelled. The 0.11 F, 0.025 F and cos/sin(π/4) constants appear as their decimal values.
- `Normalize`: `sqrt` and `pow(·, 2)` collapse to the squared norm. The NaN that a zero quaternion produces is modelled as `None`.
- Tracker confidence levels and the other 22 skeleton joints are never read.

