/** The per-vehicle state record and the movement-mode decision
    (VehiclePawnWrapper::State and canTeleportWhileMove). */
module VehicleStates {
  import opened HostGeometry
  import opened Collisions

  /** One vehicle's state; the wrapper keeps a live copy and a frozen initial
      copy. Positions are in the host frame. */
  datatype VehicleState = VehicleState(
    startLocation: Vector,
    startRotation: Rotation,
    lastPosition: Vector,
    lastDebugPosition: Vector,
    currentPosition: Vector,
    currentDebugPosition: Vector,
    debugPositionOffset: Vector,
    tracingEnabled: bool,
    collisionsEnabled: bool,
    passthroughEnabled: bool,
    wasLastMoveTeleport: bool,
    collisionInfo: CollisionInfo,
    meshOrigin: Vector,
    meshBounds: Vector,
    groundOffset: Vector,
    transformationOffset: Vector)

  /** Whether the next pose may be applied by teleporting: always when
      collisions are off; with collisions on, only while a collision is
      pending under passthrough, and never twice in a row, so that collisions
      are still detected on every other move. */
  function CanTeleportWhileMove(s: VehicleState): (r: bool)
    ensures !s.collisionsEnabled ==> r
    ensures r && s.collisionsEnabled ==>
              s.collisionInfo.hasCollided && s.passthroughEnabled && !s.wasLastMoveTeleport
    ensures s.collisionInfo.hasCollided && s.passthroughEnabled && !s.wasLastMoveTeleport ==> r
  {
    !s.collisionsEnabled
    || (s.collisionInfo.hasCollided && !s.wasLastMoveTeleport && s.passthroughEnabled)
  }

  /** With collisions off the decision is "teleport", whatever else holds. */
  lemma CollisionsOffTeleports(s: VehicleState)
    requires !s.collisionsEnabled
    ensures CanTeleportWhileMove(s)
  {
  }

  /** With collisions on, a teleport never follows a teleport. */
  lemma NoTeleportAfterTeleport(s: VehicleState)
    requires s.collisionsEnabled && s.wasLastMoveTeleport
    ensures !CanTeleportWhileMove(s)
  {
  }
}
