/** `HealthcarePersonnel` (under `Healthcare/`): wakes when the player
    touches a trigger sphere in front of it, then follows them for as long as
    they stay within `zoneRadius` of its home. */
module HealthcareZone {
  import opened Scene

  /** A world position. */
  datatype Point = Point(x: real, y: real, z: real)

  datatype Option<T> = Nothing | Some(value: T)

  /** `Start`: home is the target area's position when one is assigned,
      otherwise the NPC's own position. */
  function Home(targetArea: Option<Point>, position: Point): (r: Point)
    ensures targetArea.Some? ==> r == targetArea.value
    ensures targetArea.Nothing? ==> r == position
  {
    match targetArea
    case Some(p) => p
    case Nothing => position
  }

  /** Index of the first Player-tagged overlap, or |hits| when there is none. */
  function FirstPlayer(hits: seq<GameObject>): (k: nat)
    ensures k <= |hits|
    ensures k < |hits| ==> hits[k].tag == PlayerTag
    ensures forall i :: 0 <= i < k ==> hits[i].tag != PlayerTag
  {
    if hits == [] then 0
    else if hits[0].tag == PlayerTag then 0
    else 1 + FirstPlayer(hits[1..])
  }

  /** The following latch and the remembered player. */
  datatype Watch = Watch(following: bool, player: GameObject?)

  /** `DetectPlayer`: the first Player-tagged overlap becomes the remembered
      player and switches following on; with none, nothing changes (leaving
      the trigger does not stop following). */
  function Detected(w: Watch, hits: seq<GameObject>): (r: Watch)
    ensures (exists i :: 0 <= i < |hits| && hits[i].tag == PlayerTag) ==>
              r.following && r.player == hits[FirstPlayer(hits)]
    ensures (forall i :: 0 <= i < |hits| ==> hits[i].tag != PlayerTag) ==> r == w
  {
    var k := FirstPlayer(hits);
    if k < |hits| then Watch(true, hits[k]) else w
  }

  /** `FollowBehavior`. `distToHome` is the player's distance from home,
      `distToPlayer` the NPC's. A player outside the zone is dropped and the
      NPC stands still; inside it, the NPC steps toward the player and faces
      them while farther than `stopDistance`. */
  function Followed(w: Watch, distToHome: real, distToPlayer: real, zoneRadius: real,
                    stopDistance: real, moveSpeed: real, dt: real): (r: (Watch, Steer))
    ensures distToHome > zoneRadius ==> r == (Watch(false, null), Steer(0.0, false))
    ensures distToHome <= zoneRadius ==> r.0 == w
    ensures distToHome <= zoneRadius ==> (r.1.face <==> distToPlayer > stopDistance)
    ensures r.1.face ==> r.1.step == moveSpeed * dt
    ensures !r.1.face ==> r.1.step == 0.0
  {
    if distToHome > zoneRadius then (Watch(false, null), Steer(0.0, false))
    else if distToPlayer > stopDistance then (w, Steer(moveSpeed * dt, true))
    else (w, Steer(0.0, false))
  }

  /** One `Update`: detection, then the follow step while following with a
      known player. The distances are measured to whichever player is
      remembered after detection. */
  function Updated(w: Watch, hits: seq<GameObject>, distToHome: real, distToPlayer: real, zoneRadius: real,
                   stopDistance: real, moveSpeed: real, dt: real): (r: (Watch, Steer))
  {
    var d := Detected(w, hits);
    if d.following && d.player != null then Followed(d, distToHome, distToPlayer, zoneRadius, stopDistance, moveSpeed, dt)
    else (d, Steer(0.0, false))
  }

  /** Following is latched: with the player inside the zone, a frame in
      which the player is no longer in the trigger keeps following them. */
  lemma LatchHoldsInZone(w: Watch, hits: seq<GameObject>, distToHome: real, distToPlayer: real, zoneRadius: real,
                         stopDistance: real, moveSpeed: real, dt: real)
    requires w.following && w.player != null
    requires forall i :: 0 <= i < |hits| ==> hits[i].tag != PlayerTag
    requires distToHome <= zoneRadius
    ensures Updated(w, hits, distToHome, distToPlayer, zoneRadius, stopDistance, moveSpeed, dt).0 == w
  {
  }

  /** Leaving the zone is the only way following ends, and it ends at once:
      whatever the trigger saw, a player outside the zone is forgotten and
      the NPC does not move. */
  lemma ZoneExitStops(w: Watch, hits: seq<GameObject>, distToHome: real, distToPlayer: real, zoneRadius: real,
                      stopDistance: real, moveSpeed: real, dt: real)
    requires (w.following && w.player != null) || exists i :: 0 <= i < |hits| && hits[i].tag == PlayerTag
    requires distToHome > zoneRadius
    ensures Updated(w, hits, distToHome, distToPlayer, zoneRadius, stopDistance, moveSpeed, dt) == (Watch(false, null), Steer(0.0, false))
  {
  }

  /** An idle NPC stays idle and still until a player enters the trigger. */
  lemma IdleUntilTriggered(w: Watch, hits: seq<GameObject>, distToHome: real, distToPlayer: real, zoneRadius: real,
                           stopDistance: real, moveSpeed: real, dt: real)
    requires !w.following
    requires forall i :: 0 <= i < |hits| ==> hits[i].tag != PlayerTag
    ensures Updated(w, hits, distToHome, distToPlayer, zoneRadius, stopDistance, moveSpeed, dt) == (w, Steer(0.0, false))
  {
  }

  class HealthcarePersonnel {
    var detectionRadius: real
    var zoneRadius: real
    var stopDistance: real
    var moveSpeed: real
    var isFollowing: bool
    var playerTransform: GameObject?
    var homePosition: Point

    function Model(): Watch
      reads this
    {
      Watch(isFollowing, playerTransform)
    }

    /** The component with its Inspector defaults (trigger radius 1, zone 10,
        stop 1.5, speed 4), idle. */
    constructor ()
      ensures detectionRadius == 1.0 && zoneRadius == 10.0 && stopDistance == 1.5 && moveSpeed == 4.0
      ensures Model() == Watch(false, null)
    {
      detectionRadius := 1.0;
      zoneRadius := 10.0;
      stopDistance := 1.5;
      moveSpeed := 4.0;
      isFollowing := false;
      playerTransform := null;
      homePosition := Point(0.0, 0.0, 0.0);
    }

    method Start(targetArea: Option<Point>, position: Point)
      modifies this`homePosition
      ensures homePosition == Home(targetArea, position)
    {
      if targetArea.Some? {
        homePosition := targetArea.value;
      } else {
        homePosition := position;
      }
    }

    /** `hits` are the overlaps of the trigger sphere, in the engine's order;
        `distToHome` and `distToPlayer` are measured to the player remembered
        after detection. */
    method Update(hits: seq<GameObject>, distToHome: real, distToPlayer: real, dt: real) returns (steer: Steer)
      modifies this`isFollowing, this`playerTransform
      ensures (Model(), steer) == Updated(old(Model()), hits, distToHome, distToPlayer, zoneRadius, stopDistance, moveSpeed, dt)
    {
      DetectPlayer(hits);
      steer := Steer(0.0, false);
      if isFollowing && playerTransform != null {
        steer := FollowBehavior(distToHome, distToPlayer, dt);
      }
    }

    method DetectPlayer(hits: seq<GameObject>)
      modifies this`isFollowing, this`playerTransform
      ensures Model() == Detected(old(Model()), hits)
    {
      var playerInTrigger := false;
      var i := 0;
      while i < |hits|
        invariant 0 <= i <= |hits|
        invariant i <= FirstPlayer(hits)
        invariant !playerInTrigger && playerTransform == old(playerTransform)
        invariant isFollowing == old(isFollowing)
      {
        if hits[i].tag == PlayerTag {
          playerInTrigger := true;
          playerTransform := hits[i];
          break;
        }
        i := i + 1;
      }
      if playerInTrigger && !isFollowing {
        isFollowing := true;
      }
    }

    method FollowBehavior(distToHome: real, distToPlayer: real, dt: real) returns (steer: Steer)
      modifies this`isFollowing, this`playerTransform
      ensures (Model(), steer) == Followed(old(Model()), distToHome, distToPlayer, zoneRadius, stopDistance, moveSpeed, dt)
    {
      if distToHome > zoneRadius {
        isFollowing := false;
        playerTransform := null;
        return Steer(0.0, false);
      }
      steer := Steer(0.0, false);
      if distToPlayer > stopDistance {
        steer := Steer(moveSpeed * dt, true);
      }
    }
  }
}
