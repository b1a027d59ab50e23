/** `HealthcarePersonnel` (the companion in the scripts root): follows the
    player while it sees them, and stops following on reaching its target
    area or losing sight. */
module HealthcareCompanion {
  import opened Scene
  import Sight

  /** The radius around `targetArea` within which the companion counts as arrived. */
  const ArrivalRadius: real := 2.0

  /** The target area as seen this frame: none assigned, or assigned at this
      distance from the companion. */
  datatype Area = Unassigned | Measured(distance: real)

  /** `FollowPlayer`: step toward the player and face them only while farther
      than `stopDistance`; otherwise stand still without turning. */
  function Approach(distance: real, stopDistance: real, moveSpeed: real, dt: real): (r: Steer)
    ensures r.face <==> distance > stopDistance
    ensures r.face ==> r.step == moveSpeed * dt
    ensures !r.face ==> r.step == 0.0
  {
    if distance > stopDistance then Steer(moveSpeed * dt, true) else Steer(0.0, false)
  }

  /** One `Update`. `area` is the target area measured after this frame's
      step. Without
      a detector player nothing changes. When the player is seen the flag is
      raised, the companion approaches, and arrival at the target area lowers
      the flag again in the same frame. When the player is not seen the flag
      ends lowered and there is no movement. */
  function Followed(following: bool, hasPlayer: bool, s: Sight.Senses, distance: real, area: Area,
                    stopDistance: real, moveSpeed: real, dt: real): (r: (bool, Steer))
    ensures !hasPlayer ==> r == (following, Steer(0.0, false))
    ensures hasPlayer && s.inFOV && s.detectsPlayer ==>
              r.1 == Approach(distance, stopDistance, moveSpeed, dt) &&
              (r.0 <==> !(area.Measured? && area.distance < ArrivalRadius))
    ensures hasPlayer && !(s.inFOV && s.detectsPlayer) ==> r == (false, Steer(0.0, false))
  {
    if !hasPlayer then (following, Steer(0.0, false))
    else if s.inFOV && s.detectsPlayer then
      var steer := Approach(distance, stopDistance, moveSpeed, dt);
      var arrived := area.Measured? && area.distance < ArrivalRadius;
      (if arrived then false else true, steer)
    else if following then (false, Steer(0.0, false))
    else (following, Steer(0.0, false))
  }

  /** With a player assigned, following after a frame implies the player was
      seen that frame: the flag never outlives the line of sight. */
  lemma FollowingNeedsSight(following: bool, s: Sight.Senses, distance: real, area: Area,
                            stopDistance: real, moveSpeed: real, dt: real)
    requires Followed(following, true, s, distance, area, stopDistance, moveSpeed, dt).0
    ensures s.inFOV && s.detectsPlayer
  {
  }

  /** The view range `Start` configures on the detector. */
  const CompanionRangeOfView: real := 12.0
  /** The field of view `Start` configures on the detector, in degrees. */
  const CompanionFieldOfView: real := 60.0

  /** Composed with the detector: a detection frame that finds the player
      beyond 12 units ends any following and any movement. */
  lemma FarPlayerEndsFollowing(following: bool, s: Sight.Senses, dot: real, distance: real, threshold: real, hit: RayHit,
                               area: Area, stopDistance: real, moveSpeed: real, dt: real)
    requires distance > CompanionRangeOfView
    ensures Followed(following, true, Sight.Sensed(s, true, dot, distance, threshold, CompanionRangeOfView, hit).0,
                     distance, area, stopDistance, moveSpeed, dt) == (false, Steer(0.0, false))
  {
    Sight.OutOfRangeNeverInView(s, dot, distance, threshold, CompanionRangeOfView, hit);
  }

  class HealthcarePersonnel {
    const detection: Sight.NPCDetect
    var targetArea: bool
    var followDistance: real
    var stopDistance: real
    var moveSpeed: real
    var isFollowingPlayer: bool

    /** The component with its Inspector defaults (follow 3, stop 1.5, speed 4);
        `targetArea` says whether a target area is assigned. */
    constructor (detection: Sight.NPCDetect, targetArea: bool)
      ensures this.detection == detection && this.targetArea == targetArea
      ensures followDistance == 3.0 && stopDistance == 1.5 && moveSpeed == 4.0 && !isFollowingPlayer
    {
      this.detection := detection;
      this.targetArea := targetArea;
      followDistance := 3.0;
      stopDistance := 1.5;
      moveSpeed := 4.0;
      isFollowingPlayer := false;
    }

    method Start()
      modifies detection
      ensures detection.fieldOfView == CompanionFieldOfView && detection.rangeOfView == CompanionRangeOfView
      ensures detection.player == old(detection.player) && detection.Model() == old(detection.Model())
    {
      detection.fieldOfView := 60.0;
      detection.rangeOfView := 12.0;
    }

    /** `distance` is the distance to the player; `areaDistance` the distance
        to the target area after the step (read only when one is assigned). */
    method Update(distance: real, areaDistance: real, dt: real) returns (steer: Steer)
      modifies this`isFollowingPlayer
      ensures (isFollowingPlayer, steer)
           == Followed(old(isFollowingPlayer), detection.player != null, detection.Model(), distance,
                       if targetArea then Measured(areaDistance) else Unassigned, stopDistance, moveSpeed, dt)
    {
      steer := Steer(0.0, false);
      if detection.player == null {
        return;
      }
      var canSeePlayer := detection.inFOV && detection.detectsPlayer;
      if canSeePlayer {
        isFollowingPlayer := true;
        steer := FollowPlayer(distance, dt);
        UpdateAreaStatus(areaDistance);
      } else if isFollowingPlayer {
        isFollowingPlayer := false;
      }
    }

    method FollowPlayer(distance: real, dt: real) returns (steer: Steer)
      ensures steer == Approach(distance, stopDistance, moveSpeed, dt)
    {
      steer := Steer(0.0, false);
      if distance > stopDistance {
        steer := Steer(moveSpeed * dt, true);
      }
    }

    method UpdateAreaStatus(areaDistance: real)
      modifies this`isFollowingPlayer
      ensures isFollowingPlayer == if targetArea && areaDistance < ArrivalRadius then false else old(isFollowingPlayer)
    {
      if targetArea {
        var distToTarget := areaDistance;
        if distToTarget < 2.0 {
          isFollowingPlayer := false;
        }
      }
    }
  }
}
