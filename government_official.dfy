/** `GovernmentOfficial`: an armoured NPC that tracks the player it can see
    and takes a tenth of the damage unless made vulnerable. */
module Official {
  import opened Scene
  import Sight

  /** Health after one `TakeDamage`, and whether `Die` was called. */
  function Hurt(health: real, isVulnerable: bool, damage: real): (r: (real, bool))
    ensures isVulnerable ==> health - r.0 == damage
    ensures !isVulnerable ==> (health - r.0) * 10.0 == damage
    ensures r.1 <==> r.0 <= 0.0
  {
    var after := if isVulnerable then health - damage else health - damage * 0.1;
    (after, after <= 0.0)
  }

  /** The armour: an invulnerable official hit for ten times the damage ends
      exactly where a vulnerable one hit once does. */
  lemma ArmourIsTenfold(health: real, damage: real)
    ensures Hurt(health, false, damage * 10.0) == Hurt(health, true, damage)
  {
  }

  /** There is no "already dead" guard: until the deferred `Destroy` takes
      effect, every further non-negative hit on a dead official calls `Die`
      again. */
  lemma DiesAgain(health: real, isVulnerable: bool, first: real, second: real)
    requires Hurt(health, isVulnerable, first).1 && second >= 0.0
    ensures Hurt(Hurt(health, isVulnerable, first).0, isVulnerable, second).1
  {
  }

  /** One `Update` with the detector's state: nothing without a player; when
      the player is seen (in view and line of sight) the official always turns
      to face them and steps `moveSpeed * dt` toward them while farther than
      `stopDistance`. */
  function Tracked(hasPlayer: bool, s: Sight.Senses, distance: real, stopDistance: real, moveSpeed: real, dt: real): (r: Steer)
    ensures r.face <==> hasPlayer && s.inFOV && s.detectsPlayer
    ensures r.step != 0.0 ==> r.face && distance > stopDistance
    ensures r.face && distance > stopDistance ==> r.step == moveSpeed * dt
  {
    if !hasPlayer then Steer(0.0, false)
    else if s.inFOV && s.detectsPlayer then
      Steer(if distance > stopDistance then moveSpeed * dt else 0.0, true)
    else Steer(0.0, false)
  }

  /** The field of view `Start` configures on the detector, in degrees. */
  const OfficialFieldOfView: real := 175.0
  /** The view range `Start` configures on the detector. */
  const OfficialRangeOfView: real := 25.0

  /** Composed with the detector: after a detection frame with the player
      farther than the official's range of 25, the official neither moves nor
      turns, whatever it saw before. */
  lemma FarPlayerIgnored(s: Sight.Senses, dot: real, distance: real, threshold: real, hit: RayHit,
                         stopDistance: real, moveSpeed: real, dt: real)
    requires distance > OfficialRangeOfView
    ensures Tracked(true, Sight.Sensed(s, true, dot, distance, threshold, OfficialRangeOfView, hit).0,
                    distance, stopDistance, moveSpeed, dt) == Steer(0.0, false)
  {
    Sight.OutOfRangeNeverInView(s, dot, distance, threshold, OfficialRangeOfView, hit);
  }

  class GovernmentOfficial {
    const detection: Sight.NPCDetect
    var moveSpeed: real
    var stopDistance: real
    var health: real
    var isVulnerable: bool

    /** The component with its Inspector defaults (speed 2, stop 5, health 100). */
    constructor (detection: Sight.NPCDetect)
      ensures this.detection == detection
      ensures moveSpeed == 2.0 && stopDistance == 5.0 && health == 100.0 && !isVulnerable
    {
      this.detection := detection;
      moveSpeed := 2.0;
      stopDistance := 5.0;
      health := 100.0;
      isVulnerable := false;
    }

    method Start()
      modifies detection
      ensures detection.fieldOfView == OfficialFieldOfView && detection.rangeOfView == OfficialRangeOfView
      ensures detection.player == old(detection.player) && detection.Model() == old(detection.Model())
    {
      detection.fieldOfView := 175.0;
      detection.rangeOfView := 25.0;
    }

    /** `distance` is the distance to the detector's player this frame. */
    method Update(distance: real, dt: real) returns (steer: Steer)
      ensures steer == Tracked(detection.player != null, detection.Model(), distance, stopDistance, moveSpeed, dt)
    {
      if detection.player == null {
        return Steer(0.0, false);
      }
      var canSeePlayer := detection.inFOV && detection.detectsPlayer;
      steer := Steer(0.0, false);
      if canSeePlayer {
        steer := FollowPlayer(distance, dt);
      }
    }

    method FollowPlayer(distance: real, dt: real) returns (steer: Steer)
      ensures steer.face
      ensures steer.step == if distance > stopDistance then moveSpeed * dt else 0.0
    {
      var step := 0.0;
      if distance > stopDistance {
        step := moveSpeed * dt;
      }
      steer := Steer(step, true);
    }

    /** Returns whether `Die` was called. */
    method TakeDamage(damage: real) returns (died: bool)
      modifies this`health
      ensures (health, died) == Hurt(old(health), isVulnerable, damage)
    {
      if isVulnerable {
        health := health - damage;
      } else {
        health := health - damage * 0.1;
      }
      died := false;
      if health <= 0.0 {
        died := true;
      }
    }
  }
}
