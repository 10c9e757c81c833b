/** The collision recorder: how one host hit notification is folded into the
    vehicle's CollisionInfo record (VehiclePawnWrapper::onCollision). */
module Collisions {
  import opened Wrappers
  import opened HostGeometry

  /** The root component of the other actor. Only a primitive component
      carries the custom depth-stencil value used as the object id; the cast
      to UPrimitiveComponent yields null for any other kind. */
  datatype RootComponent = PrimitiveRoot(customDepthStencilValue: int) | OtherRoot

  /** The actor the vehicle hit, as far as the recorder reads it. */
  datatype OtherActor = OtherActor(name: string, root: Option<RootComponent>)

  /** One NotifyHit, with its vectors already converted to the simulation's
      NED frame and the clock already read: `vehiclePosition` is the vehicle's
      location at the moment of the hit and `timeStamp` the clock's nanoseconds. */
  datatype CollisionEvent = CollisionEvent(
    other: Option<OtherActor>,
    impactNormal: Vector,
    impactPoint: Vector,
    vehiclePosition: Vector,
    penetrationDepth: Scalar,
    timeStamp: nat)

  /** The record the simulation reads back with getCollisionInfo. */
  datatype CollisionInfo = CollisionInfo(
    hasCollided: bool,
    normal: Vector,
    impactPoint: Vector,
    position: Vector,
    penetrationDepth: Scalar,
    timeStamp: nat,
    objectName: string,
    objectId: int,
    collisionCount: nat)

  /** Name recorded when the notification names no other actor. */
  const NullObjectName: string := "(null)"

  /** Id recorded when the other actor has no primitive root component. */
  const UnknownObjectId: int := -1

  /** The default-constructed record: nothing hit, nothing counted. */
  const NoCollision: CollisionInfo :=
    CollisionInfo(false, ZeroVector, ZeroVector, ZeroVector, Num(0.0), 0, "", UnknownObjectId, 0)

  function ObjectName(other: Option<OtherActor>): string
  {
    match other
    case None => NullObjectName
    case Some(actor) => actor.name
  }

  function ObjectId(other: Option<OtherActor>): int
  {
    match other
    case Some(OtherActor(_, Some(PrimitiveRoot(stencil)))) => stencil
    case _ => UnknownObjectId
  }

  /** `info` holds the details of `e`: everything but the flag and the counter. */
  predicate Describes(info: CollisionInfo, e: CollisionEvent)
  {
    && info.normal == e.impactNormal
    && info.impactPoint == e.impactPoint
    && info.position == e.vehiclePosition
    && info.penetrationDepth == e.penetrationDepth
    && info.timeStamp == e.timeStamp
    && info.objectName == ObjectName(e.other)
    && info.objectId == ObjectId(e.other)
  }

  /** onCollision on the record: raise the flag, overwrite the details with
      the latest hit, and count it, even when the flag was already up. */
  function Record(info: CollisionInfo, e: CollisionEvent): (r: CollisionInfo)
    ensures r.hasCollided
    ensures r.collisionCount == info.collisionCount + 1
    ensures Describes(r, e)
    ensures e.other.None? ==> r.objectName == NullObjectName && r.objectId == UnknownObjectId
    ensures e.other.Some? ==> r.objectName == e.other.value.name
    ensures e.other.Some? && e.other.value.root.Some? && e.other.value.root.value.PrimitiveRoot? ==>
              r.objectId == e.other.value.root.value.customDepthStencilValue
    ensures e.other.Some? && (e.other.value.root.None? || e.other.value.root.value.OtherRoot?) ==>
              r.objectId == UnknownObjectId
  {
    CollisionInfo(
      true,
      e.impactNormal,
      e.impactPoint,
      e.vehiclePosition,
      e.penetrationDepth,
      e.timeStamp,
      ObjectName(e.other),
      ObjectId(e.other),
      info.collisionCount + 1)
  }

  /** Several notifications in a row, oldest first: last writer wins for the
      details, and every one of them is counted. */
  function RecordAll(info: CollisionInfo, es: seq<CollisionEvent>): (r: CollisionInfo)
    ensures r.collisionCount == info.collisionCount + |es|
    ensures r.hasCollided <==> info.hasCollided || |es| > 0
    ensures |es| == 0 ==> r == info
    ensures |es| > 0 ==> Describes(r, es[|es| - 1])
    decreases |es|
  {
    if |es| == 0 then info else RecordAll(Record(info, es[0]), es[1..])
  }

  /** A burst of notifications recorded one by one is the same as recording
      its two halves in turn. */
  lemma {:induction false} RecordAllSplit(info: CollisionInfo, es: seq<CollisionEvent>, fs: seq<CollisionEvent>)
    ensures RecordAll(info, es + fs) == RecordAll(RecordAll(info, es), fs)
    decreases |es|
  {
    if |es| == 0 {
      assert es + fs == fs;
    } else {
      assert (es + fs)[1..] == es[1..] + fs;
      RecordAllSplit(Record(info, es[0]), es[1..], fs);
    }
  }
}
