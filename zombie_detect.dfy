/** `ZombieNPCDetect`: a zombie picks the nearest person around it and decides
    whether that person is ahead, in its field of view and in reach of a ray. */
module ZombieSense {
  import opened Scene
  import Sight

  /** The index of the nearest candidate, the earliest one among equally near
      candidates (the loop only replaces on a strictly smaller distance), or -1
      when there is none. */
  function Nearest(cands: seq<Candidate>): (k: int)
    ensures -1 <= k < |cands|
    ensures k == -1 <==> cands == []
    ensures 0 <= k ==> forall i :: 0 <= i < |cands| ==> cands[k].distance <= cands[i].distance
    ensures 0 <= k ==> forall i :: 0 <= i < k ==> cands[k].distance < cands[i].distance
    decreases |cands|
  {
    if cands == [] then -1
    else
      var k := Nearest(cands[..|cands| - 1]);
      if k == -1 || cands[|cands| - 1].distance < cands[k].distance then |cands| - 1 else k
  }

  /** The fields `target`, `inFront`, `inFOV` and `inRange`. */
  datatype Perception = Perception(target: GameObject?, inFront: bool, inFOV: bool, inRange: bool)

  /** `forwardDot > 0.5`: the coarse "roughly ahead" gate. */
  const FrontThreshold: real := 0.5

  /** One `Update`: `target` is re-chosen every frame; `inFront` is recomputed
      (false without a target); the field-of-view and ray checks run only when
      the target is in front, and otherwise `inFOV` and `inRange` keep their
      values from earlier frames. The zombie turns to the target exactly when
      all three flags hold. */
  function Perceived(s: Perception, cands: seq<Candidate>, threshold: real, rangeOfView: real, hit: RayHit): (r: (Perception, bool))
    ensures cands == [] ==> r.0 == s.(target := null, inFront := false) && !r.1
    ensures cands != [] ==> r.0.target == cands[Nearest(cands)].obj
    ensures r.0.inFront <==> cands != [] && cands[Nearest(cands)].dot > FrontThreshold
    ensures r.0.inFront ==> (r.0.inFOV <==> cands[Nearest(cands)].dot > threshold && cands[Nearest(cands)].distance <= rangeOfView)
    ensures r.0.inFront && hit.Hit? ==> (r.0.inRange <==> hit.tag == PlayerTag)
    ensures !r.0.inFront || hit.Miss? ==> r.0.inRange == s.inRange
    ensures !r.0.inFront ==> r.0.inFOV == s.inFOV
    ensures r.1 <==> r.0.inFront && r.0.inFOV && r.0.inRange
  {
    var k := Nearest(cands);
    if k == -1 then (s.(target := null, inFront := false), false)
    else
      var c := cands[k];
      if !(c.dot > FrontThreshold) then (s.(target := c.obj, inFront := false), false)
      else
        var inFOV := Sight.FieldOfViewAfter(s.inFOV, c.dot, threshold, c.distance, rangeOfView);
        var inRange := Sight.RayAfter(s.inRange, hit);
        (Perception(c.obj, true, inFOV, inRange), inFOV && inRange)
  }

  /** The flags survive frames in which the target is not ahead: a person seen
      in view and in reach stays flagged while it is behind the zombie. */
  lemma FlagsKeptBehind(s: Perception, cands: seq<Candidate>, threshold: real, rangeOfView: real, hit: RayHit)
    requires s.inFOV && s.inRange
    requires cands != [] && cands[Nearest(cands)].dot <= FrontThreshold
    ensures Perceived(s, cands, threshold, rangeOfView, hit).0.inFOV
    ensures Perceived(s, cands, threshold, rangeOfView, hit).0.inRange
    ensures !Perceived(s, cands, threshold, rangeOfView, hit).1
  {
  }

  /** Of two equally near people at the minimum distance, the later one is
      never chosen: the choice is at or before the earlier one. */
  lemma FirstWinsTie(cands: seq<Candidate>, i: nat, j: nat)
    requires i < j < |cands|
    requires cands[i].distance == cands[j].distance
    requires forall m :: 0 <= m < |cands| ==> cands[i].distance <= cands[m].distance
    ensures 0 <= Nearest(cands) <= i
  {
  }

  class ZombieNPCDetect {
    var target: GameObject?
    var fieldOfView: real
    var rangeOfView: real
    var inFront: bool
    var inFOV: bool
    var inRange: bool

    function Model(): Perception
      reads this
    {
      Perception(target, inFront, inFOV, inRange)
    }

    /** The component with its Inspector defaults (45 degrees, range 5). */
    constructor ()
      ensures fieldOfView == 45.0 && rangeOfView == 5.0
      ensures Model() == Perception(null, false, false, false)
    {
      target := null;
      fieldOfView := 45.0;
      rangeOfView := 5.0;
      inFront := false;
      inFOV := false;
      inRange := false;
    }

    /** `cands` is what `Physics.OverlapSphere` returns within `rangeOfView`,
        with each object's distance and forward dot product; `threshold` is
        `Mathf.Cos(fieldOfView * Mathf.Deg2Rad)`; `hit` is the ray of length
        `rangeOfView` toward the target. Returns whether `LookAtPlayer` ran. */
    method Update(cands: seq<Candidate>, threshold: real, hit: RayHit) returns (lookAt: bool)
      modifies this
      ensures (Model(), lookAt) == Perceived(old(Model()), cands, threshold, old(rangeOfView), hit)
      ensures fieldOfView == old(fieldOfView) && rangeOfView == old(rangeOfView)
    {
      var k := DetectAll(cands);
      lookAt := false;
      if inFront {
        CheckFieldOfView(cands[k].dot, cands[k].distance, threshold);
        CheckIfInRange(hit);
        if inFOV && inRange {
          lookAt := true;
        }
      }
    }

    /** Chooses the nearest candidate as `target` and tests whether it is in
        front. Returns the chosen candidate's index (the source keeps only the
        object and recomputes its direction from it), -1 for none. */
    method DetectAll(cands: seq<Candidate>) returns (k: int)
      modifies this`target, this`inFront
      ensures k == Nearest(cands)
      ensures target == (if k == -1 then null else cands[k].obj)
      ensures inFront <==> k != -1 && cands[k].dot > FrontThreshold
    {
      var minDist := 0.0;
      var bounded := false;  // false while minDist is still Mathf.Infinity
      target := null;
      k := -1;
      for i := 0 to |cands|
        invariant k == Nearest(cands[..i])
        invariant bounded <==> k != -1
        invariant target == (if k == -1 then null else cands[k].obj)
        invariant k != -1 ==> minDist == cands[k].distance
      {
        assert cands[..i + 1][..i] == cands[..i];
        var enemyDist := cands[i].distance;
        if !bounded || enemyDist < minDist {
          minDist := enemyDist;
          bounded := true;
          target := cands[i].obj;
          k := i;
        }
      }
      assert cands[..|cands|] == cands;
      if target != null {
        CheckIfTargetIsInFront(cands[k].dot);
      } else {
        inFront := false;
      }
    }

    method CheckIfTargetIsInFront(forwardDot: real)
      modifies this`inFront
      ensures inFront <==> forwardDot > FrontThreshold
    {
      if forwardDot > FrontThreshold {
        inFront := true;
      } else {
        inFront := false;
      }
    }

    method CheckFieldOfView(dot: real, distance: real, threshold: real)
      modifies this`inFOV
      ensures inFOV == Sight.FieldOfViewAfter(old(inFOV), dot, threshold, distance, rangeOfView)
    {
      if dot > threshold {
        if distance <= rangeOfView {
          inFOV := true;
        }
      } else {
        inFOV := false;
      }
      if distance > rangeOfView {
        inFOV := false;
      }
    }

    method CheckIfInRange(hit: RayHit)
      modifies this`inRange
      ensures inRange == Sight.RayAfter(old(inRange), hit)
    {
      if hit.Hit? {
        if hit.tag == PlayerTag {
          inRange := true;
        } else {
          inRange := false;
        }
      }
    }
  }
}
