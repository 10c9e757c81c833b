# AirSim vehicle pawn wrapper — state machine model

This project models the per-vehicle state machine of AirSim's Unreal plugin,
`VehiclePawnWrapper`. The wrapper sits between a rigid-body pawn owned by the
Unreal engine and the external vehicle simulation. It decides whether each
externally computed pose is applied by teleporting or by a collision-resolved
sweep. It records collision notifications into a `CollisionInfo` record. It
keeps the trace and debug-overlay trails, probes the obstacle distance, and
resets the vehicle to a frozen initial record.

The model is functional. `VehicleState` and `Wrapper` are immutable records,
and every wrapper call is a pure function from the old record to the new
one. The engine is not modelled. What it would do during a call is an input
instead:

- the pose arrives already converted to the host frame;
- the hit notifications the engine delivers synchronously while a move is
  committed are a sequence `hitsDuringCommit`, oldest first;
- the obstacle ray cast is an `Option<real>` hit distance;
- the collision's NED-converted vectors and clock reading arrive with the
  `CollisionEvent`.

What the wrapper asks of the engine is an output: the `Move` it commits
(location, rotation, teleport or sweep) and the trace `Segment` it draws.

Host coordinates are `Scalar = Num(real) | NaN`. Finite values are exact
reals, so the 0.25 squared-distance trace threshold is stated exactly. NaN
propagates through arithmetic, and a comparison with NaN is false, as in
IEEE-754. So a NaN point never advances a trail while tracing is on. A NaN
debug pose is still stored as the current debug position, though. If tracing
is switched on after one, the overlay offset carries the NaN, and the overlay
trail stays where it is until tracing is toggled again
(`NanDebugPoseStallsOverlay`).

Modules, one per component:

- `Wrappers`: `Option` and `Result`.
- `HostGeometry`: scalars, vectors, rotations and the trace-step test.
- `Collisions`: the collision record and the recorder `Record`/`RecordAll`.
- `VehicleStates`: the state record and `CanTeleportWhileMove`.
- `PawnWrapper`: the wrapper calls and the properties that relate a few calls.
- `Sessions`: arbitrary runs of calls and the properties of whole runs.

`initialize` seeds `initial_state_.was_last_move_teleport` by calling
`canTeleportWhileMove()`, which reads the live `state_`, not the record being
built (VehiclePawnWrapper.cpp:155-156). The model follows the code.
`InitialTeleportFlagReadsLiveState` shows an input where the frozen flag
disagrees with the decision rule applied to the frozen record.
`InitialTeleportFlagIsInert` shows the flag does not matter to a pose update
that follows the reset directly, with no hit delivered in between:
`has_collided` is false in that record, so the decision does not depend on
the flag, and `setPose` overwrites it. A hit delivered between the reset and
the first pose update does make the flag observable.
`InitialTeleportFlagDecidesAfterHit` shows this: with collisions and
passthrough on, a set flag gives a resolved move and a clear flag gives a
teleport.

## Model

| member | source | states |
|---|---|---|
| VehicleStates.CollisionsOffTeleports | Unreal/Plugins/AirSim/Source/VehiclePawnWrapper.cpp:365 | With collisions disabled the decision is always "teleport", whatever the collision flag, passthrough and last-move flag say. |
| VehicleStates.CanTeleportWhileMove | Unreal/Plugins/AirSim/Source/VehiclePawnWrapper.cpp:358-366 | The movement decision: always teleport with collisions off. With collisions on, teleport only while a collision is pending, passthrough is on and the previous move was not a teleport. Conversely, those three together always allow a teleport. |
| VehicleStates.NoTeleportAfterTeleport | Unreal/Plugins/AirSim/Source/VehiclePawnWrapper.cpp:362-365 | With collisions enabled, a teleport is never allowed right after a teleport: the flip-flop that keeps collisions detectable. |
| HostGeometry.TraceStepMeaning | Unreal/Plugins/AirSim/Source/VehiclePawnWrapper.cpp:315 | The trace test passes for finite points exactly when their squared distance exceeds 0.25; a NaN on either side always fails it. |
| HostGeometry.NoTraceStepInPlace | Unreal/Plugins/AirSim/Source/VehiclePawnWrapper.cpp:347 | A point is never beyond the trace step from itself, so a trail never draws a segment to where it already is. |
| HostGeometry.SubtractDifference | Unreal/Plugins/AirSim/Source/VehiclePawnWrapper.cpp:346 | For finite points, subtracting the offset `a - b` from `a` gives `b`: the overlay offset maps the debug position back onto the body. |
| Collisions.Record | Unreal/Plugins/AirSim/Source/VehiclePawnWrapper.cpp:44-55 | One hit raises the flag, adds exactly 1 to the counter even if already collided, copies normal, impact point, position, depth and time; the name is "(null)" with no other actor; the id is the primitive root's stencil value, else -1. |
| Collisions.RecordAll | Unreal/Plugins/AirSim/Source/VehiclePawnWrapper.cpp:46-55 | A burst of n hits adds exactly n to the counter, leaves the flag raised iff it was raised or n > 0, and keeps the details of the last hit (last writer wins); no hits leave the record unchanged. |
| Collisions.RecordAllSplit | Unreal/Plugins/AirSim/Source/VehiclePawnWrapper.cpp:46-55 | Recording a burst equals recording its two halves in turn: hits are neither lost nor merged across call boundaries. |
| PawnWrapper.OnCollision | Unreal/Plugins/AirSim/Source/VehiclePawnWrapper.cpp:37-62 | onCollision raises has_collided, increments collision_count by exactly 1 and records the hit's details; no other field of the state or the wrapper changes. |
| PawnWrapper.SetPose | Unreal/Plugins/AirSim/Source/VehiclePawnWrapper.cpp:293-340 | The move teleports iff ignore_collision or the decision on the old state allows it, and was_last_move_teleport records that. has_collided afterwards is true iff a hit fired during the commit, and the counter grows by the number of those hits. Tracing on: last_position advances to the pose, with one segment, iff the squared displacement exceeds 0.25. Tracing off: it always advances. The distance is the hit distance, else 4000. Nothing else changes. |
| PawnWrapper.SetDebugPose | Unreal/Plugins/AirSim/Source/VehiclePawnWrapper.cpp:342-356 | current_debug_position becomes the pose. With tracing on, a NaN pose, or one within the trace step of the overlay trail, leaves last_debug_position unchanged; a farther one advances it to the pose minus the offset and draws one segment. With tracing off it always becomes pose minus offset. Nothing else changes. |
| PawnWrapper.ToggleTrace | Unreal/Plugins/AirSim/Source/VehiclePawnWrapper.cpp:235-245 | Flips tracing_enabled and nothing else, except that switching it on sets debug_position_offset to current_debug_position - current_position and last_debug_position to last_position. |
| PawnWrapper.AllowPassthroughToggleInput | Unreal/Plugins/AirSim/Source/VehiclePawnWrapper.cpp:247-251 | Flips passthrough_enabled and changes nothing else. |
| PawnWrapper.Initialize | Unreal/Plugins/AirSim/Source/VehiclePawnWrapper.cpp:123-159 | Seeds the initial record from the pawn's location, rotation and bounds and from the configured toggles, with the default collision record. The initial teleport flag is the decision on the live state. The fields it does not assign, and the live state, are left alone. Also sets the home point, ground offset and ground trace end. |
| PawnWrapper.Reset | Unreal/Plugins/AirSim/Source/VehiclePawnWrapper.cpp:189-196 | The live state becomes the initial record and the body is teleported to its start location and rotation; nothing else changes. |
| PawnWrapper.GetCamera | Unreal/Plugins/AirSim/Source/VehiclePawnWrapper.cpp:171-177 | Returns the camera at the index iff 0 <= index < camera count, otherwise the "Camera id is not valid" error. |
| PawnWrapper.NoConsecutiveTeleports | Unreal/Plugins/AirSim/Source/VehiclePawnWrapper.cpp:302-308 | With collisions enabled and no ignored collision, two successive pose updates never both teleport, whatever hits occur. |
| PawnWrapper.PassthroughFlipFlop | Unreal/Plugins/AirSim/Source/VehiclePawnWrapper.cpp:358-366 | From a pending collision under passthrough with a resolved last move, the next pose update teleports and the one after is resolved. |
| PawnWrapper.HitIsSeenThenCleared | Unreal/Plugins/AirSim/Source/VehiclePawnWrapper.cpp:302-313 | A hit before a pose update is visible to that update's decision. With passthrough off the update is a resolved move. With no hit during the commit, the flag is clear afterwards and the count is one higher. |
| PawnWrapper.TogglesAndDecision | Unreal/Plugins/AirSim/Source/VehiclePawnWrapper.cpp:235-251 | Toggling trace never changes the movement decision; toggling passthrough twice restores the wrapper exactly. |
| PawnWrapper.TraceOnAlignsOverlay | Unreal/Plugins/AirSim/Source/VehiclePawnWrapper.cpp:241-244 | For finite body and debug positions, right after tracing is switched on, the current debug position shifted by the new offset is the body's current position. |
| PawnWrapper.NanDebugPoseStallsOverlay | Unreal/Plugins/AirSim/Source/VehiclePawnWrapper.cpp:342-354 | A NaN debug pose stored while tracing is off makes the offset taken when tracing goes on carry a NaN. Every later debug pose then draws nothing and leaves the overlay trail where it was. |
| PawnWrapper.ResetAfterInitialize | Unreal/Plugins/AirSim/Source/VehiclePawnWrapper.cpp:144-196 | After initialize then reset, the body is teleported to the pawn's location and rotation, the collision record is the default with count 0, and the toggles are the configured ones. |
| PawnWrapper.ResetIdempotent | Unreal/Plugins/AirSim/Source/VehiclePawnWrapper.cpp:189-196 | Resetting twice is the same as resetting once. |
| PawnWrapper.InitialTeleportFlagReadsLiveState | Unreal/Plugins/AirSim/Source/VehiclePawnWrapper.cpp:155-156 | With collisions off in the live state but on in the configuration, the initial record says "last move teleported" although its own decision rule forbids a teleport. |
| PawnWrapper.InitialTeleportFlagIsInert | Unreal/Plugins/AirSim/Source/VehiclePawnWrapper.cpp:155-156 | When the initial record has no pending collision, a pose update immediately after reset, with no hit delivered in between, commits the same move and reaches the same state whatever the initial teleport flag is. |
| PawnWrapper.InitialTeleportFlagDecidesAfterHit | Unreal/Plugins/AirSim/Source/VehiclePawnWrapper.cpp:155-156 | With collisions and passthrough on in the initial record, a hit after reset makes the first pose update teleport iff the initial teleport flag is clear, so the flag taken from the live state is observable. |
| PawnWrapper.PoseInPlaceKeepsTrail | Unreal/Plugins/AirSim/Source/VehiclePawnWrapper.cpp:315-321 | With tracing on, a pose update back onto the last trail point draws no segment and leaves the trail where it was, NaN points included. |
| PawnWrapper.DebugPoseInPlaceKeepsTrail | Unreal/Plugins/AirSim/Source/VehiclePawnWrapper.cpp:345-351 | With tracing on, a debug pose whose offset point is the overlay's last point draws no segment and leaves the overlay trail where it was. |
| Sessions.FlipFlopOverRun | Unreal/Plugins/AirSim/Source/VehiclePawnWrapper.cpp:302-308 | Over any run of calls without reset or ignored collisions, and with collisions enabled, the committed moves never contain two teleports in a row. |
| Sessions.ResetBreaksAlternation | Unreal/Plugins/AirSim/Source/VehiclePawnWrapper.cpp:189-196 | Why resets are excluded from the flip-flop. A reset always teleports, so it can follow a teleporting pose update. After a reset to a record with a clear teleport flag and collisions and passthrough on, a hit then a pose update teleports again. |
| Sessions.CollisionsOffAllTeleport | Unreal/Plugins/AirSim/Source/VehiclePawnWrapper.cpp:365 | With collisions off in the live and initial records, every move of any run is a teleport, resets included. |
| Sessions.CollisionCountAccumulates | Unreal/Plugins/AirSim/Source/VehiclePawnWrapper.cpp:55 | Over any run without reset, the collision counter grows by exactly the number of hits the host reported, during pose commits or on their own. |
| Sessions.ResetForgetsHistory | Unreal/Plugins/AirSim/Source/VehiclePawnWrapper.cpp:191-196 | After any run, reset restores the initial record the run started with and commits the same teleport. |

## Left out

- Coordinate conversion (NedTransform `toNeuUU`, `toNedMeters`, `toFQuat`, `toQuaternionr`, `toVector3r`) and the calibration in `NedTransform::initialize`: not part of this model, and floating-point quaternion numerics. Poses enter in the host frame and collision vectors in the NED frame. `toPose` and `getPose` are not modelled.
- Floating point: scalars are exact reals plus NaN. Rounding, infinities and the `float` width of the obstacle distance are not modelled.
- Engine physics: the sweep that `SetActorLocationAndRotation` performs, and where it leaves the body, belong to the engine. The model outputs the requested move.
- The obstacle probe geometry (`GetActorUpVector`, `RotateAngleAxis`, the lidar forward pitch) and `GetObstacle` itself: only the hit distance enters, as an input.
- Drawing and logging: `DrawDebugLine` is modelled as the returned `Segment`. `FlushPersistentDebugLines`, `displayCollisionEffect`, `LogMessage` and the hit name in `setPose` are output only.
- The collision clock: `nowNanos()` is the event's `timeStamp` input.
- Settings lookups (`getVehicleConfigName`, `getRemoteControlID`, `getLidarForwardPitch`, `setupCamerasFromSettings`), the constructor's particle asset, and `plot` (log-file parsing and drawing): configuration and I/O.
- Accessors (`getPawn`, `getTrueKinematics`, `setKinematics`, `getImageCapture`, `getCameraCount`, `getConfig`, `getHomePoint`, `getCollisionInfo`, `getDistance`, `getPosition`, `getOrientation`, `setLogLine`, `getLogLine`, `printLogMessage`) and `getActorPose` (actor lookup by name): they read or write a single field, or call into the engine.
- `CollisionInfo`'s declaration is not part of this model. `NoCollision` takes its default as zero vectors, depth 0, time 0, empty name, id -1 and count 0. `collision_count` is a nat; wrap-around of the fixed-width counter is not modelled.
- Reset's commit: `Reset` assumes the host delivers no hit while the body is teleported back (it has no hit parameter). `ResetAfterInitialize` and `ResetIdempotent` rely on that. `SetPose` accepts hits on its teleport branch too, which is more permissive than the engine, where a non-sweeping teleport reports no hit.
- Concurrency: notifications are modelled as delivered synchronously inside the commit or between calls, never in parallel with a call.
