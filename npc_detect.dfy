/** `NPCDetect`: the field-of-view and line-of-sight test that the officials
    and the healthcare companion use to see the player. */
module Sight {
  import opened Scene

  /** `CheckFieldOfView` as written: set on a dot product strictly above the
      threshold (`Mathf.Cos(fieldOfView)`) within range, cleared on a dot at or
      below it, and cleared again beyond range. Whatever the flag was before,
      it ends up exactly "strictly inside the cone and within range". */
  function FieldOfViewAfter(inFOV: bool, dot: real, threshold: real, distance: real, rangeOfView: real): (r: bool)
    ensures r <==> dot > threshold && distance <= rangeOfView
  {
    var checkedAngle := if dot > threshold then (if distance <= rangeOfView then true else inFOV) else false;
    if distance > rangeOfView then false else checkedAngle
  }

  /** A raycast result applied to a flag: a hit on the player sets it, any other
      hit clears it, and a miss keeps the previous value. */
  function RayAfter(flag: bool, hit: RayHit): (r: bool)
    ensures hit.Miss? ==> r == flag
    ensures hit.Hit? ==> (r <==> hit.tag == PlayerTag)
  {
    match hit
    case Miss => flag
    case Hit(tag) => tag == PlayerTag
  }

  /** The fields `inFOV` and `detectsPlayer`. */
  datatype Senses = Senses(inFOV: bool, detectsPlayer: bool)

  /** One `Update`. Without an assigned player the first line throws and the
      frame changes nothing. Otherwise both flags are recomputed (a ray miss
      keeping `detectsPlayer`), and the NPC turns to the player exactly when
      both flags hold afterwards. */
  function Sensed(s: Senses, hasPlayer: bool, dot: real, distance: real, threshold: real, rangeOfView: real, hit: RayHit): (r: (Senses, bool))
    ensures !hasPlayer ==> r == (s, false)
    ensures hasPlayer ==> (r.0.inFOV <==> dot > threshold && distance <= rangeOfView)
    ensures hasPlayer && hit.Miss? ==> r.0.detectsPlayer == s.detectsPlayer
    ensures hasPlayer && hit.Hit? ==> (r.0.detectsPlayer <==> hit.tag == PlayerTag)
    ensures r.1 <==> hasPlayer && r.0.detectsPlayer && r.0.inFOV
  {
    if !hasPlayer then (s, false)
    else
      var next := Senses(FieldOfViewAfter(s.inFOV, dot, threshold, distance, rangeOfView), RayAfter(s.detectsPlayer, hit));
      (next, next.detectsPlayer && next.inFOV)
  }

  /** A player beyond the view range is never in view, whatever the angle. */
  lemma OutOfRangeNeverInView(s: Senses, dot: real, distance: real, threshold: real, rangeOfView: real, hit: RayHit)
    requires distance > rangeOfView
    ensures !Sensed(s, true, dot, distance, threshold, rangeOfView, hit).0.inFOV
    ensures !Sensed(s, true, dot, distance, threshold, rangeOfView, hit).1
  {
  }

  /** A dot product exactly at the threshold is outside the cone. */
  lemma ThresholdIsExcluded(s: Senses, distance: real, threshold: real, rangeOfView: real, hit: RayHit)
    ensures !Sensed(s, true, threshold, distance, threshold, rangeOfView, hit).0.inFOV
  {
  }

  class NPCDetect {
    var player: GameObject?
    var fieldOfView: real
    var rangeOfView: real
    var inFOV: bool
    var detectsPlayer: bool

    function Model(): Senses
      reads this
    {
      Senses(inFOV, detectsPlayer)
    }

    /** The component with its Inspector defaults (45 degrees, range 5). */
    constructor (player: GameObject?)
      ensures this.player == player && fieldOfView == 45.0 && rangeOfView == 5.0
      ensures Model() == Senses(false, false)
    {
      this.player := player;
      fieldOfView := 45.0;
      rangeOfView := 5.0;
      inFOV := false;
      detectsPlayer := false;
    }

    /** `dot` is the forward vector against the direction to the player,
        `distance` the distance to the player, `threshold` is
        `Mathf.Cos(fieldOfView * Mathf.Deg2Rad)` and `hit` the unbounded ray
        toward the player. Returns whether `LookAtPlayer` ran. */
    method Update(dot: real, distance: real, threshold: real, hit: RayHit) returns (lookAt: bool)
      modifies this
      ensures (Model(), lookAt) == Sensed(old(Model()), old(player) != null, dot, distance, threshold, old(rangeOfView), hit)
      ensures player == old(player) && fieldOfView == old(fieldOfView) && rangeOfView == old(rangeOfView)
    {
      if player == null {
        return false;
      }
      CheckFieldOfView(dot, distance, threshold);
      CheckIfPlayerIsSeen(hit);
      lookAt := detectsPlayer && inFOV;
    }

    method CheckFieldOfView(dot: real, distance: real, threshold: real)
      modifies this`inFOV
      ensures inFOV == FieldOfViewAfter(old(inFOV), dot, threshold, distance, rangeOfView)
    {
      if dot > threshold {
        if distance <= rangeOfView {
          inFOV := true;
        }
      } else {
        inFOV := false;
      }
      if distance > rangeOfView {
        inFOV := false;
      }
    }

    method CheckIfPlayerIsSeen(hit: RayHit)
      modifies this`detectsPlayer
      ensures detectsPlayer == RayAfter(old(detectsPlayer), hit)
    {
      if hit.Hit? {
        if hit.tag == PlayerTag {
          detectsPlayer := true;
        } else {
          detectsPlayer := false;
        }
      }
    }
  }
}
