// packages/viewer/src/camera.ts: the camera actor. It holds the camera pose
// (center, rotation, distance to the center), whether rotation is enabled,
// the ratio of the parallel scale to the distance, and the actors watching
// the pose; every pose change is sent to every watcher. Messages sent to
// other actors are appended to an outbox.
module Camera {
  import opened JsCommon

  datatype Vec3 = Vec3(x: real, y: real, z: real)

  /** A rotation quaternion `[x, y, z, w]`. */
  datatype Quat = Quat(x: real, y: real, z: real, w: real)

  datatype Pose = Pose(center: Vec3, rotation: Quat, distance: real)

  /** The pose carried by a `setPose` event; `parallelScale` is only given when the view is reset. */
  datatype PoseEvent = PoseEvent(center: Vec3, rotation: Quat, distance: real, parallelScale: Option<real>)

  /** The `setCameraPose` message sent to a watcher. */
  datatype Message = SetCameraPose(pose: Pose, parallelScaleRatio: Num)

  /** `createPose()`: centered at the origin, identity rotation, distance 1. */
  const InitialPose := Pose(Vec3(0.0, 0.0, 0.0), Quat(0.0, 0.0, 0.0, 1.0), 1.0)

  /**
   * The pose `setPose` stores: the event's center and distance, and its
   * rotation only while rotation is enabled.
   */
  function PoseAfter(current: Pose, enableRotation: bool, e: PoseEvent): (r: Pose)
    ensures r.center == e.center && r.distance == e.distance
    ensures enableRotation ==> r.rotation == e.rotation
    ensures !enableRotation ==> r.rotation == current.rotation
  {
    Pose(e.center, if enableRotation then e.rotation else current.rotation, e.distance)
  }

  /** The poses after a run of `setPose` events. */
  function PoseAfterAll(current: Pose, enableRotation: bool, events: seq<PoseEvent>): Pose
    decreases |events|
  {
    if events == [] then current
    else PoseAfterAll(PoseAfter(current, enableRotation, events[0]), enableRotation, events[1..])
  }

  /**
   * While rotation is disabled no run of `setPose` events changes the
   * rotation, and the pose ends with the last event's center and distance.
   */
  lemma {:induction false} RotationLocked(current: Pose, events: seq<PoseEvent>)
    ensures PoseAfterAll(current, false, events).rotation == current.rotation
    ensures events != [] ==>
      PoseAfterAll(current, false, events).center == events[|events| - 1].center &&
      PoseAfterAll(current, false, events).distance == events[|events| - 1].distance
    decreases |events|
  {
    if events != [] {
      RotationLocked(PoseAfter(current, false, events[0]), events[1..]);
    }
  }

  /**
   * The `parallelScaleRatio` `setPose` stores: unchanged unless the event
   * gives a parallel scale, then `parallelScale / distance`.
   */
  function RatioAfter(ratio: Num, e: PoseEvent): (r: Num)
    ensures e.parallelScale.None? ==> r == ratio
    ensures e.parallelScale.Some? ==>
      (r.Fin? <==> e.distance != 0.0) && (r.Fin? ==> r.r * e.distance == e.parallelScale.value)
  {
    match e.parallelScale
    case None => ratio
    case Some(s) => Div(s, e.distance)
  }

  /** `poseWatchers.filter((w) => w !== watcher)`. */
  function Without<W(==, !new)>(watchers: seq<W>, watcher: W): (r: seq<W>)
    ensures watcher !in r
    ensures forall w :: w in r <==> w in watchers && w != watcher
    ensures |r| <= |watchers|
  {
    if watchers == [] then []
    else (if watchers[0] == watcher then [] else [watchers[0]]) + Without(watchers[1..], watcher)
  }

  /** Removing a watcher keeps the others in their order: removal distributes over concatenation. */
  lemma {:induction false} WithoutConcat<W(!new)>(a: seq<W>, b: seq<W>, watcher: W)
    ensures Without(a + b, watcher) == Without(a, watcher) + Without(b, watcher)
  {
    if a != [] {
      assert a + b != [] && (a + b)[0] == a[0] && (a + b)[1..] == a[1..] + b;
      WithoutConcat(a[1..], b, watcher);
      AppendAssoc(if a[0] == watcher then [] else [a[0]], Without(a[1..], watcher), Without(b, watcher));
    } else {
      assert a + b == b;
    }
  }

  /** Removing a watcher that is not registered changes nothing. */
  lemma {:induction false} WithoutAbsent<W(!new)>(watchers: seq<W>, watcher: W)
    requires watcher !in watchers
    ensures Without(watchers, watcher) == watchers
  {
    if watchers != [] {
      assert watchers == [watchers[0]] + watchers[1..];
      WithoutAbsent(watchers[1..], watcher);
    }
  }

  /** Registering a watcher and removing it again restores the list, when it was not registered before. */
  lemma WatchThenStop<W(!new)>(watchers: seq<W>, watcher: W)
    requires watcher !in watchers
    ensures Without(watchers + [watcher], watcher) == watchers
  {
    WithoutConcat(watchers, [watcher], watcher);
    WithoutAbsent(watchers, watcher);
    assert Without([watcher], watcher) == [] + Without([], watcher);
  }

  /** One `setCameraPose` message per watcher, in registration order. */
  function Broadcast<W>(watchers: seq<W>, m: Message): (r: seq<(W, Message)>)
    ensures |r| == |watchers|
    ensures forall i :: 0 <= i < |watchers| ==> r[i] == (watchers[i], m)
  {
    seq(|watchers|, i requires 0 <= i < |watchers| => (watchers[i], m))
  }

  class CameraActor<W(==, !new)> {
    var pose: Pose
    var enableRotation: bool
    var verticalFieldOfView: real
    var parallelScaleRatio: Num
    var poseWatchers: seq<W>
    /** Messages sent to other actors, oldest first. */
    var outbox: seq<(W, Message)>

    /** The initial context: the default pose, rotation enabled, a 50 degree field of view, ratio 1, no watchers. */
    constructor()
      ensures pose == InitialPose && enableRotation && verticalFieldOfView == 50.0
      ensures parallelScaleRatio == Fin(1.0) && poseWatchers == [] && outbox == []
    {
      pose := InitialPose;
      enableRotation := true;
      verticalFieldOfView := 50.0;
      parallelScaleRatio := Fin(1.0);
      poseWatchers := [];
      outbox := [];
    }

    /** `setPose`: the pose and ratio are updated, then every watcher is sent the new pose. */
    method SetPose(e: PoseEvent)
      modifies this
      ensures pose == PoseAfter(old(pose), enableRotation, e)
      ensures parallelScaleRatio == RatioAfter(old(parallelScaleRatio), e)
      ensures outbox == old(outbox) + Broadcast(poseWatchers, SetCameraPose(pose, parallelScaleRatio))
      ensures enableRotation == old(enableRotation) && verticalFieldOfView == old(verticalFieldOfView)
      ensures poseWatchers == old(poseWatchers)
    {
      pose := PoseAfter(pose, enableRotation, e);
      parallelScaleRatio := RatioAfter(parallelScaleRatio, e);
      outbox := outbox + Broadcast(poseWatchers, SetCameraPose(pose, parallelScaleRatio));
    }

    /** `watchPose`: the watcher is registered last and sent the current pose at once. */
    method WatchPose(watcher: W)
      modifies this
      ensures poseWatchers == old(poseWatchers) + [watcher]
      ensures outbox == old(outbox) + [(watcher, SetCameraPose(pose, parallelScaleRatio))]
      ensures pose == old(pose) && parallelScaleRatio == old(parallelScaleRatio)
      ensures enableRotation == old(enableRotation) && verticalFieldOfView == old(verticalFieldOfView)
    {
      poseWatchers := poseWatchers + [watcher];
      outbox := outbox + [(watcher, SetCameraPose(pose, parallelScaleRatio))];
    }

    /** `watchPoseStop`: every registration of the watcher is removed. */
    method WatchPoseStop(watcher: W)
      modifies this
      ensures poseWatchers == Without(old(poseWatchers), watcher)
      ensures outbox == old(outbox) && pose == old(pose) && parallelScaleRatio == old(parallelScaleRatio)
      ensures enableRotation == old(enableRotation) && verticalFieldOfView == old(verticalFieldOfView)
    {
      poseWatchers := Without(poseWatchers, watcher);
    }

    /** `setEnableRotation`. */
    method SetEnableRotation(enable: bool)
      modifies this
      ensures enableRotation == enable
      ensures pose == old(pose) && parallelScaleRatio == old(parallelScaleRatio) && poseWatchers == old(poseWatchers)
      ensures outbox == old(outbox) && verticalFieldOfView == old(verticalFieldOfView)
    {
      enableRotation := enable;
    }
  }
}
