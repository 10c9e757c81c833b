/** The vehicle pawn wrapper: applying externally computed poses, recording
    collisions, the trace toggles and reset (VehiclePawnWrapper.cpp).

    The host engine is not modelled. What it would do during a call is an
    input instead: the pose arrives already converted to the host frame, the
    hit notifications the host delivers synchronously while committing a move
    are a sequence of events, and the obstacle ray cast is an optional hit
    distance. What the wrapper asks the host to do is an output: the move it
    commits and the trace segments it draws. */
module PawnWrapper {
  import opened Wrappers
  import opened HostGeometry
  import opened Collisions
  import opened VehicleStates

  /** A camera handle attached to the vehicle. */
  datatype Camera = Camera(name: string)

  /** The home point as latitude, longitude and altitude. */
  datatype GeoPoint = GeoPoint(latitude: real, longitude: real, altitude: real)

  /** Configuration copied into the wrapper by initialize. */
  datatype WrapperConfig = WrapperConfig(
    vehicleConfigName: string,
    homeLatitude: real,
    homeLongitude: real,
    homeAltitude: real,
    enableTrace: bool,
    enableCollisions: bool,
    enablePassthroughOnCollisions: bool)

  /** What initialize reads from the host pawn: its location, its rotation
      and its bounds (origin and box extent). */
  datatype PawnView = PawnView(
    location: Vector,
    rotation: Rotation,
    meshOrigin: Vector,
    meshBounds: Vector)

  /** The wrapper object. */
  datatype Wrapper = Wrapper(
    state: VehicleState,
    initialState: VehicleState,
    distance: real,
    cameras: seq<Camera>,
    homePoint: GeoPoint,
    config: WrapperConfig,
    groundMargin: Vector,
    groundTraceEnd: Vector)

  /** A move committed to the host body: a teleport bypasses collision
      resolution, otherwise the host sweeps and may stop the body short. */
  datatype Move = Move(location: Vector, rotation: Rotation, teleport: bool)

  /** A persistent debug line from one trail point to the next. */
  datatype Segment = Segment(from: Vector, to: Vector)

  datatype PoseOutcome = PoseOutcome(wrapper: Wrapper, move: Move, trace: Option<Segment>)

  datatype DebugOutcome = DebugOutcome(wrapper: Wrapper, trace: Option<Segment>)

  datatype ResetOutcome = ResetOutcome(wrapper: Wrapper, move: Move)

  /** Length of the obstacle probe, in host units (centimetres); also the
      distance reported when the probe hits nothing. */
  const ObstacleRange: real := 4000.0

  /** Height added below the ground offset for the ground trace. */
  const GroundMargin: Vector := Vector(Num(0.0), Num(0.0), Num(20.0))

  const CameraIdNotValid: string := "Camera id is not valid"

  /** The parts of the live state a pose update never touches. */
  predicate SameSetup(a: VehicleState, b: VehicleState)
  {
    && a.startLocation == b.startLocation
    && a.startRotation == b.startRotation
    && a.tracingEnabled == b.tracingEnabled
    && a.collisionsEnabled == b.collisionsEnabled
    && a.passthroughEnabled == b.passthroughEnabled
    && a.meshOrigin == b.meshOrigin
    && a.meshBounds == b.meshBounds
    && a.groundOffset == b.groundOffset
    && a.transformationOffset == b.transformationOffset
  }

  /** Everything of the wrapper except its live state and probe distance. */
  predicate SameFixtures(a: Wrapper, b: Wrapper)
  {
    && a.initialState == b.initialState
    && a.cameras == b.cameras
    && a.homePoint == b.homePoint
    && a.config == b.config
    && a.groundMargin == b.groundMargin
    && a.groundTraceEnd == b.groundTraceEnd
  }

  // ---------------------------------------------------------------------
  // Collision recorder

  /** onCollision: the host reports a hit on the vehicle. Only the collision
      record changes. */
  function OnCollision(w: Wrapper, e: CollisionEvent): (r: Wrapper)
    ensures r.state.collisionInfo.hasCollided
    ensures r.state.collisionInfo.collisionCount == w.state.collisionInfo.collisionCount + 1
    ensures Describes(r.state.collisionInfo, e)
    ensures r.state.(collisionInfo := w.state.collisionInfo) == w.state
    ensures r.(state := w.state) == w
  {
    w.(state := w.state.(collisionInfo := Record(w.state.collisionInfo, e)))
  }

  // ---------------------------------------------------------------------
  // Pose application

  /** The trail bookkeeping of setPose, applied after the move is committed:
      with tracing on, the trail grows only once the body is more than the
      trace step away from its last trail point; with tracing off the trail
      point simply follows the body. */
  function AdvanceTrail(s: VehicleState, position: Vector): (VehicleState, Option<Segment>)
  {
    if s.tracingEnabled && MovedBeyondTraceStep(s.lastPosition, position) then
      (s.(lastPosition := position), Some(Segment(s.lastPosition, position)))
    else if !s.tracingEnabled then
      (s.(lastPosition := position), None)
    else
      (s, None)
  }

  /** The obstacle distance stored after the probe: the hit distance, or the
      full range when nothing was hit. */
  function ObstacleDistance(obstacle: Option<real>): real
  {
    match obstacle
    case Some(d) => d
    case None => ObstacleRange
  }

  /** setPose(pose, ignore_collision) with the pose already in the host frame.

      The movement mode is decided from the state as it was before the call.
      The collision flag is cleared and the mode recorded BEFORE the move is
      committed, so that the hits the host reports while committing it
      (`hitsDuringCommit`, oldest first) survive into the next call. */
  function SetPose(w: Wrapper, position: Vector, orientation: Rotation, ignoreCollision: bool,
                   hitsDuringCommit: seq<CollisionEvent>, obstacle: Option<real>): (r: PoseOutcome)
    // the decision and the move committed
    ensures r.move.teleport <==> ignoreCollision || CanTeleportWhileMove(w.state)
    ensures r.move.location == position && r.move.rotation == orientation
    ensures r.wrapper.state.wasLastMoveTeleport == r.move.teleport
    ensures r.wrapper.state.currentPosition == position
    // the collision record after the commit
    ensures r.wrapper.state.collisionInfo.hasCollided <==> |hitsDuringCommit| > 0
    ensures r.wrapper.state.collisionInfo.collisionCount
              == w.state.collisionInfo.collisionCount + |hitsDuringCommit|
    ensures |hitsDuringCommit| == 0 ==>
              r.wrapper.state.collisionInfo == w.state.collisionInfo.(hasCollided := false)
    ensures |hitsDuringCommit| > 0 ==>
              Describes(r.wrapper.state.collisionInfo, hitsDuringCommit[|hitsDuringCommit| - 1])
    // the trail
    ensures w.state.tracingEnabled && MovedBeyondTraceStep(w.state.lastPosition, position) ==>
              r.wrapper.state.lastPosition == position
              && r.trace == Some(Segment(w.state.lastPosition, position))
    ensures w.state.tracingEnabled && !MovedBeyondTraceStep(w.state.lastPosition, position) ==>
              r.wrapper.state.lastPosition == w.state.lastPosition && r.trace.None?
    ensures !w.state.tracingEnabled ==>
              r.wrapper.state.lastPosition == position && r.trace.None?
    // the obstacle probe
    ensures obstacle.Some? ==> r.wrapper.distance == obstacle.value
    ensures obstacle.None? ==> r.wrapper.distance == ObstacleRange
    // nothing else changes
    ensures SameSetup(w.state, r.wrapper.state)
    ensures r.wrapper.state.lastDebugPosition == w.state.lastDebugPosition
    ensures r.wrapper.state.currentDebugPosition == w.state.currentDebugPosition
    ensures r.wrapper.state.debugPositionOffset == w.state.debugPositionOffset
    ensures SameFixtures(w, r.wrapper)
  {
    var teleport := ignoreCollision || CanTeleportWhileMove(w.state);
    var armed := w.state.(currentPosition := position,
                          wasLastMoveTeleport := teleport,
                          collisionInfo := w.state.collisionInfo.(hasCollided := false));
    var committed := armed.(collisionInfo := RecordAll(armed.collisionInfo, hitsDuringCommit));
    var (traced, segment) := AdvanceTrail(committed, position);
    PoseOutcome(w.(state := traced, distance := ObstacleDistance(obstacle)),
                Move(position, orientation, teleport),
                segment)
  }

  /** setDebugPose with the debug position already in the host frame: the
      overlay trail is the debug position shifted back by the offset captured
      when tracing was last switched on. A NaN position is skipped while
      tracing; with tracing off the overlay point just follows. */
  function SetDebugPose(w: Wrapper, debugPosition: Vector): (r: DebugOutcome)
    ensures r.wrapper.state.currentDebugPosition == debugPosition
    ensures w.state.tracingEnabled && HasNan(debugPosition) ==>
              r.wrapper.state.lastDebugPosition == w.state.lastDebugPosition && r.trace.None?
    ensures w.state.tracingEnabled && !HasNan(debugPosition)
            && MovedBeyondTraceStep(w.state.lastDebugPosition, Sub(debugPosition, w.state.debugPositionOffset)) ==>
              r.wrapper.state.lastDebugPosition == Sub(debugPosition, w.state.debugPositionOffset)
              && r.trace == Some(Segment(w.state.lastDebugPosition, r.wrapper.state.lastDebugPosition))
    ensures w.state.tracingEnabled
            && !MovedBeyondTraceStep(w.state.lastDebugPosition, Sub(debugPosition, w.state.debugPositionOffset)) ==>
              r.wrapper.state.lastDebugPosition == w.state.lastDebugPosition && r.trace.None?
    ensures !w.state.tracingEnabled ==>
              r.wrapper.state.lastDebugPosition == Sub(debugPosition, w.state.debugPositionOffset)
              && r.trace.None?
    ensures r.wrapper.state.(currentDebugPosition := w.state.currentDebugPosition,
                             lastDebugPosition := w.state.lastDebugPosition) == w.state
    ensures r.wrapper.(state := w.state) == w
  {
    var s := w.state.(currentDebugPosition := debugPosition);
    var offsetPosition := Sub(s.currentDebugPosition, s.debugPositionOffset);
    if s.tracingEnabled && !HasNan(debugPosition) then
      if MovedBeyondTraceStep(s.lastDebugPosition, offsetPosition) then
        DebugOutcome(w.(state := s.(lastDebugPosition := offsetPosition)),
                     Some(Segment(s.lastDebugPosition, offsetPosition)))
      else
        DebugOutcome(w.(state := s), None)
    else if !s.tracingEnabled then
      DebugOutcome(w.(state := s.(lastDebugPosition := offsetPosition)), None)
    else
      DebugOutcome(w.(state := s), None)
  }

  // ---------------------------------------------------------------------
  // Toggles

  /** toggleTrace: flips tracing. Switching it on re-anchors the overlay:
      the offset becomes the gap between the debug position and the body,
      and the overlay trail restarts at the primary trail's last point. */
  function ToggleTrace(w: Wrapper): (r: Wrapper)
    ensures r.state.tracingEnabled == !w.state.tracingEnabled
    ensures w.state.tracingEnabled ==> r.state == w.state.(tracingEnabled := false)
    ensures !w.state.tracingEnabled ==>
              && r.state.debugPositionOffset == Sub(w.state.currentDebugPosition, w.state.currentPosition)
              && r.state.lastDebugPosition == w.state.lastPosition
              && r.state.(debugPositionOffset := w.state.debugPositionOffset,
                          lastDebugPosition := w.state.lastDebugPosition,
                          tracingEnabled := false) == w.state
    ensures r.(state := w.state) == w
  {
    var s := w.state.(tracingEnabled := !w.state.tracingEnabled);
    if !s.tracingEnabled then
      w.(state := s)
    else
      w.(state := s.(debugPositionOffset := Sub(s.currentDebugPosition, s.currentPosition),
                     lastDebugPosition := s.lastPosition))
  }

  /** allowPassthroughToggleInput: flips passthrough and nothing else. */
  function AllowPassthroughToggleInput(w: Wrapper): (r: Wrapper)
    ensures r.state.passthroughEnabled != w.state.passthroughEnabled
    ensures r.state.(passthroughEnabled := w.state.passthroughEnabled) == w.state
    ensures r.(state := w.state) == w
  {
    w.(state := w.state.(passthroughEnabled := !w.state.passthroughEnabled))
  }

  // ---------------------------------------------------------------------
  // Setup, reset and camera access

  /** The record initialize freezes: anchored at the pawn's pose and bounds,
      toggles from the configuration, no collision, and the teleport flag
      decided on the live state. Fields initialize does not assign keep the
      value they had in the prior record. */
  function SeedInitialState(prior: VehicleState, live: VehicleState, pawn: PawnView,
                            config: WrapperConfig): (s: VehicleState)
    ensures s.startLocation == pawn.location
    ensures s.lastPosition == pawn.location
    ensures s.lastDebugPosition == pawn.location
    ensures s.startRotation == pawn.rotation
    ensures s.meshOrigin == pawn.meshOrigin
    ensures s.meshBounds == pawn.meshBounds
    ensures s.groundOffset == Vector(Num(0.0), Num(0.0), pawn.meshBounds.z)
    ensures s.transformationOffset == Sub(pawn.location, s.groundOffset)
    ensures s.tracingEnabled == config.enableTrace
    ensures s.collisionsEnabled == config.enableCollisions
    ensures s.passthroughEnabled == config.enablePassthroughOnCollisions
    ensures s.collisionInfo == NoCollision
    ensures s.wasLastMoveTeleport == CanTeleportWhileMove(live)
    ensures s.currentPosition == prior.currentPosition
    ensures s.currentDebugPosition == prior.currentDebugPosition
    ensures s.debugPositionOffset == prior.debugPositionOffset
  {
    var groundOffset := Vector(Num(0.0), Num(0.0), pawn.meshBounds.z);
    VehicleState(
      startLocation := pawn.location,
      startRotation := pawn.rotation,
      lastPosition := pawn.location,
      lastDebugPosition := pawn.location,
      currentPosition := prior.currentPosition,
      currentDebugPosition := prior.currentDebugPosition,
      debugPositionOffset := prior.debugPositionOffset,
      tracingEnabled := config.enableTrace,
      collisionsEnabled := config.enableCollisions,
      passthroughEnabled := config.enablePassthroughOnCollisions,
      wasLastMoveTeleport := CanTeleportWhileMove(live),
      collisionInfo := NoCollision,
      meshOrigin := pawn.meshOrigin,
      meshBounds := pawn.meshBounds,
      groundOffset := groundOffset,
      transformationOffset := Sub(pawn.location, groundOffset))
  }

  /** initialize: seeds the frozen initial state from the pawn and the
      configuration. The live state is left alone, and so are the fields of
      the initial state that initialize does not assign. The initial
      "last move was a teleport" flag is computed by canTeleportWhileMove,
      which reads the LIVE state, not the record being built. */
  function Initialize(w: Wrapper, pawn: PawnView, cameras: seq<Camera>, config: WrapperConfig): (r: Wrapper)
    ensures r.state == w.state
    ensures r.cameras == cameras && r.config == config
    ensures r.homePoint == GeoPoint(config.homeLatitude, config.homeLongitude, config.homeAltitude)
    ensures r.initialState.startLocation == pawn.location
    ensures r.initialState.lastPosition == pawn.location
    ensures r.initialState.lastDebugPosition == pawn.location
    ensures r.initialState.startRotation == pawn.rotation
    ensures r.initialState.meshOrigin == pawn.meshOrigin
    ensures r.initialState.meshBounds == pawn.meshBounds
    ensures r.initialState.groundOffset == Vector(Num(0.0), Num(0.0), pawn.meshBounds.z)
    ensures r.initialState.transformationOffset == Sub(pawn.location, r.initialState.groundOffset)
    ensures r.groundMargin == GroundMargin
    ensures r.groundTraceEnd == Add(r.initialState.groundOffset, GroundMargin)
    ensures r.initialState.tracingEnabled == config.enableTrace
    ensures r.initialState.collisionsEnabled == config.enableCollisions
    ensures r.initialState.passthroughEnabled == config.enablePassthroughOnCollisions
    ensures r.initialState.collisionInfo == NoCollision
    ensures r.initialState.wasLastMoveTeleport == CanTeleportWhileMove(w.state)
    ensures r.initialState.currentPosition == w.initialState.currentPosition
    ensures r.initialState.currentDebugPosition == w.initialState.currentDebugPosition
    ensures r.initialState.debugPositionOffset == w.initialState.debugPositionOffset
    ensures r.distance == w.distance
  {
    var initial := SeedInitialState(w.initialState, w.state, pawn, config);
    Wrapper(
      state := w.state,
      initialState := initial,
      distance := w.distance,
      cameras := cameras,
      homePoint := GeoPoint(config.homeLatitude, config.homeLongitude, config.homeAltitude),
      config := config,
      groundMargin := GroundMargin,
      groundTraceEnd := Add(initial.groundOffset, GroundMargin))
  }

  /** reset: the live state becomes the frozen initial state and the body is
      teleported back to where it started, never blocked by a collision. */
  function Reset(w: Wrapper): (r: ResetOutcome)
    ensures r.wrapper.state == w.initialState
    ensures r.move.teleport
    ensures r.move.location == w.initialState.startLocation
    ensures r.move.rotation == w.initialState.startRotation
    ensures r.wrapper.(state := w.state) == w
  {
    var s := w.initialState;
    ResetOutcome(w.(state := s), Move(s.startLocation, s.startRotation, true))
  }

  /** getCamera: the camera at `index`, or the out-of-range error. */
  function GetCamera(w: Wrapper, index: int): (r: Result<Camera, string>)
    ensures r.Ok? <==> 0 <= index < |w.cameras|
    ensures r.Ok? ==> r.value == w.cameras[index]
    ensures r.Err? ==> r.error == CameraIdNotValid
  {
    if index < 0 || index >= |w.cameras| then Err(CameraIdNotValid) else Ok(w.cameras[index])
  }

  // ---------------------------------------------------------------------
  // Properties relating several calls

  /** Two pose updates with collisions on and nothing ignored never both
      teleport. */
  lemma NoConsecutiveTeleports(w: Wrapper, p1: Vector, o1: Rotation, h1: seq<CollisionEvent>, d1: Option<real>,
                               p2: Vector, o2: Rotation, h2: seq<CollisionEvent>, d2: Option<real>)
    requires w.state.collisionsEnabled
    ensures var first := SetPose(w, p1, o1, false, h1, d1);
            var second := SetPose(first.wrapper, p2, o2, false, h2, d2);
            !(first.move.teleport && second.move.teleport)
  {
    var first := SetPose(w, p1, o1, false, h1, d1);
    if first.move.teleport {
      NoTeleportAfterTeleport(first.wrapper.state);
    }
  }

  /** Passthrough with a pending collision: the next move teleports, and the
      one after it is physically resolved, whether or not a hit occurs in
      between. */
  lemma PassthroughFlipFlop(w: Wrapper, p1: Vector, o1: Rotation, h1: seq<CollisionEvent>, d1: Option<real>,
                            p2: Vector, o2: Rotation, h2: seq<CollisionEvent>, d2: Option<real>)
    requires w.state.collisionsEnabled && w.state.passthroughEnabled
    requires w.state.collisionInfo.hasCollided && !w.state.wasLastMoveTeleport
    ensures var first := SetPose(w, p1, o1, false, h1, d1);
            var second := SetPose(first.wrapper, p2, o2, false, h2, d2);
            first.move.teleport && !second.move.teleport
            && first.wrapper.state.wasLastMoveTeleport && !second.wrapper.state.wasLastMoveTeleport
  {
    var first := SetPose(w, p1, o1, false, h1, d1);
    NoTeleportAfterTeleport(first.wrapper.state);
  }

  /** The edge-triggered flag: a hit before a pose update is seen by that
      update's decision and cleared by it; with passthrough off the update is
      physically resolved. */
  lemma HitIsSeenThenCleared(w: Wrapper, e: CollisionEvent, p: Vector, o: Rotation, d: Option<real>)
    requires w.state.collisionsEnabled && !w.state.passthroughEnabled
    ensures OnCollision(w, e).state.collisionInfo.hasCollided
    ensures var after := SetPose(OnCollision(w, e), p, o, false, [], d);
            && !after.move.teleport
            && !after.wrapper.state.collisionInfo.hasCollided
            && after.wrapper.state.collisionInfo.collisionCount == w.state.collisionInfo.collisionCount + 1
  {
  }

  /** Toggling trace never changes the movement decision; toggling
      passthrough twice changes nothing at all. */
  lemma TogglesAndDecision(w: Wrapper)
    ensures CanTeleportWhileMove(ToggleTrace(w).state) == CanTeleportWhileMove(w.state)
    ensures AllowPassthroughToggleInput(AllowPassthroughToggleInput(w)) == w
  {
  }

  /** Switching tracing on aligns the overlay with the primary trail: the
      current debug position, shifted by the new offset, is the body's
      current position. */
  lemma TraceOnAlignsOverlay(w: Wrapper)
    requires !w.state.tracingEnabled
    requires !HasNan(w.state.currentDebugPosition) && !HasNan(w.state.currentPosition)
    ensures var s := ToggleTrace(w).state;
            Sub(s.currentDebugPosition, s.debugPositionOffset) == w.state.currentPosition
  {
    SubtractDifference(w.state.currentDebugPosition, w.state.currentPosition);
  }

  /** A NaN debug pose delivered while tracing is off is stored, and
      switching tracing on then takes the offset from it. The offset carries
      a NaN, so every later overlay point does too, and the overlay trail
      stays where it was until tracing is toggled again. */
  lemma NanDebugPoseStallsOverlay(w: Wrapper, nan: Vector, q: Vector)
    requires !w.state.tracingEnabled && HasNan(nan)
    ensures var t := ToggleTrace(SetDebugPose(w, nan).wrapper);
            && t.state.tracingEnabled
            && HasNan(t.state.debugPositionOffset)
            && SetDebugPose(t, q).trace.None?
            && SetDebugPose(t, q).wrapper.state.lastDebugPosition == t.state.lastDebugPosition
  {
    var t := ToggleTrace(SetDebugPose(w, nan).wrapper);
    assert HasNan(t.state.debugPositionOffset);
    TraceStepMeaning(t.state.lastDebugPosition, Sub(q, t.state.debugPositionOffset));
  }

  /** Reset after initialize: the body goes back to where the pawn stood, the
      collision record is the default one with a zero count, and the
      toggles are the configured ones. */
  lemma ResetAfterInitialize(w: Wrapper, pawn: PawnView, cameras: seq<Camera>, config: WrapperConfig)
    ensures var r := Reset(Initialize(w, pawn, cameras, config));
            && r.move == Move(pawn.location, pawn.rotation, true)
            && r.wrapper.state.collisionInfo == NoCollision
            && r.wrapper.state.collisionInfo.collisionCount == 0
            && r.wrapper.state.lastPosition == pawn.location
            && r.wrapper.state.tracingEnabled == config.enableTrace
            && r.wrapper.state.collisionsEnabled == config.enableCollisions
            && r.wrapper.state.passthroughEnabled == config.enablePassthroughOnCollisions
  {
  }

  /** Reset is idempotent. */
  lemma ResetIdempotent(w: Wrapper)
    ensures Reset(Reset(w).wrapper) == Reset(w)
  {
  }

  /** The initial teleport flag is taken from the live state: with
      collisions switched off in the live state but on in the configuration,
      the frozen record claims a teleport that its own decision rule would
      not make. */
  lemma InitialTeleportFlagReadsLiveState(w: Wrapper, pawn: PawnView, cameras: seq<Camera>, config: WrapperConfig)
    requires !w.state.collisionsEnabled && config.enableCollisions
    ensures var r := Initialize(w, pawn, cameras, config);
            r.initialState.wasLastMoveTeleport && !CanTeleportWhileMove(r.initialState)
  {
  }

  /** The flag is inert for a pose update that follows the reset directly,
      with no hit delivered in between: on a record with no pending
      collision the update decides and ends the same whatever the flag says. */
  lemma InitialTeleportFlagIsInert(w: Wrapper, flag: bool, p: Vector, o: Rotation, ignoreCollision: bool,
                                   hits: seq<CollisionEvent>, d: Option<real>)
    requires !w.initialState.collisionInfo.hasCollided
    ensures var other := w.(initialState := w.initialState.(wasLastMoveTeleport := flag));
            var a := SetPose(Reset(w).wrapper, p, o, ignoreCollision, hits, d);
            var b := SetPose(Reset(other).wrapper, p, o, ignoreCollision, hits, d);
            a.move == b.move && a.trace == b.trace && a.wrapper.state == b.wrapper.state
  {
  }

  /** ...but a hit delivered between the reset and the first pose update
      makes the flag decide the move: with collisions and passthrough on in
      the initial record, a set flag gives a resolved move and a clear flag
      a teleport. */
  lemma InitialTeleportFlagDecidesAfterHit(w: Wrapper, e: CollisionEvent, p: Vector, o: Rotation,
                                           hits: seq<CollisionEvent>, d: Option<real>)
    requires w.initialState.collisionsEnabled && w.initialState.passthroughEnabled
    ensures var afterHit := OnCollision(Reset(w).wrapper, e);
            SetPose(afterHit, p, o, false, hits, d).move.teleport <==> !w.initialState.wasLastMoveTeleport
  {
  }

  /** A pose update back onto the last trail point while tracing is on
      neither draws a segment nor moves the trail, NaN points included. */
  lemma PoseInPlaceKeepsTrail(w: Wrapper, o: Rotation, ignoreCollision: bool,
                              hits: seq<CollisionEvent>, d: Option<real>)
    requires w.state.tracingEnabled
    ensures var r := SetPose(w, w.state.lastPosition, o, ignoreCollision, hits, d);
            r.trace.None? && r.wrapper.state.lastPosition == w.state.lastPosition
  {
    NoTraceStepInPlace(w.state.lastPosition);
  }

  /** Likewise for the debug overlay: re-submitting the debug position that
      lands on the overlay's last point draws nothing while tracing is on. */
  lemma DebugPoseInPlaceKeepsTrail(w: Wrapper, debugPosition: Vector)
    requires w.state.tracingEnabled
    requires Sub(debugPosition, w.state.debugPositionOffset) == w.state.lastDebugPosition
    ensures var r := SetDebugPose(w, debugPosition);
            r.trace.None? && r.wrapper.state.lastDebugPosition == w.state.lastDebugPosition
  {
    NoTraceStepInPlace(w.state.lastDebugPosition);
  }
}
