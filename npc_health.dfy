/** `NPCHealth`: integer health for non-player characters, with death either
    delegated to a `HealthcarePersonnel` component or handled generically. */
module NpcVitals {
  import opened Int32

  /** The Inspector settings and the components found on the same object. */
  datatype Setup = Setup(
    maxHealth: i32,
    destroyDelay: real,
    handleDeathLogic: bool,
    hasHealthcare: bool,
    hasAnimator: bool)

  /** The fields `currentHealth` and `_isDead`. */
  datatype Vitals = Vitals(currentHealth: i32, isDead: bool)

  /** What `Die` did: nothing (already dead), hand over to
      `HealthcarePersonnel.Die`, or the generic fallback (colliders disabled,
      death animation when there is an animator, `Destroy` after a delay). */
  datatype Death = AlreadyDead | Delegated | Fallback(animated: bool, destroyDelay: real)

  /** What one `TakeDamage` call did. */
  datatype Hit = Ignored | Hurt(hitTrigger: bool) | Killed(death: Death)

  /** `Start`: full health. */
  function Started(setup: Setup, v: Vitals): (r: Vitals)
    ensures r.currentHealth == setup.maxHealth && r.isDead == v.isDead
  {
    v.(currentHealth := setup.maxHealth)
  }

  /** `Die`: runs its body only the first time; delegates when death logic is
      handled and a `HealthcarePersonnel` is present, otherwise falls back. */
  function Died(setup: Setup, v: Vitals): (r: (Vitals, Death))
    ensures r.0.isDead && r.0.currentHealth == v.currentHealth
    ensures v.isDead <==> r.1 == AlreadyDead
    ensures r.1 == Delegated <==> !v.isDead && setup.handleDeathLogic && setup.hasHealthcare
    ensures r.1.Fallback? ==> r.1 == Fallback(setup.hasAnimator, setup.destroyDelay)
  {
    if v.isDead then (v, AlreadyDead)
    else if setup.handleDeathLogic && setup.hasHealthcare then (v.(isDead := true), Delegated)
    else (v.(isDead := true), Fallback(setup.hasAnimator, setup.destroyDelay))
  }

  /** `TakeDamage(damage)`: ignored when dead; otherwise subtracts (with 32-bit
      wrap-around); 0 or less kills, and only a surviving NPC gets the hurt
      trigger (when it has an animator). */
  function Damaged(setup: Setup, v: Vitals, damage: i32): (r: (Vitals, Hit))
    ensures v.isDead <==> r.1 == Ignored
    ensures v.isDead ==> r.0 == v
    ensures !v.isDead ==> r.0.currentHealth == Wrap(v.currentHealth - damage)
    ensures r.1.Killed? <==> !v.isDead && r.0.currentHealth <= 0
    ensures r.1.Killed? ==> r.1.death != AlreadyDead
    ensures r.1.Killed? ==> r.1.death == Died(setup, Vitals(r.0.currentHealth, false)).1
    ensures r.1.Killed? ==> (r.1.death == Delegated <==> setup.handleDeathLogic && setup.hasHealthcare)
    ensures r.1.Killed? && r.1.death.Fallback? ==> r.1.death == Fallback(setup.hasAnimator, setup.destroyDelay)
    ensures r.1.Hurt? ==> r.0.currentHealth > 0 && r.1.hitTrigger == setup.hasAnimator
    ensures r.0.isDead <==> v.isDead || r.1.Killed?
  {
    if v.isDead then (v, Ignored)
    else
      var hurt := v.(currentHealth := Wrap(v.currentHealth - damage));
      if hurt.currentHealth <= 0 then
        var (dead, death) := Died(setup, hurt);
        (dead, Killed(death))
      else (hurt, Hurt(setup.hasAnimator))
  }

  /** The outcomes of a sequence of `TakeDamage` calls. */
  function DamagedAll(setup: Setup, v: Vitals, blows: seq<i32>): (r: (Vitals, seq<Hit>))
    ensures |r.1| == |blows|
    decreases |blows|
  {
    if blows == [] then (v, [])
    else
      var (next, hit) := Damaged(setup, v, blows[0]);
      var (last, hits) := DamagedAll(setup, next, blows[1..]);
      (last, [hit] + hits)
  }

  /** Death runs at most once: in any sequence of blows at most one kills. */
  lemma {:induction false} KilledAtMostOnce(setup: Setup, v: Vitals, blows: seq<i32>, i: nat, j: nat)
    requires i < j < |blows|
    requires DamagedAll(setup, v, blows).1[i].Killed?
    ensures DamagedAll(setup, v, blows).1[j] == Ignored
    decreases |blows|
  {
    var (next, hit) := Damaged(setup, v, blows[0]);
    if i == 0 {
      AllIgnoredOnceDead(setup, next, blows[1..], j - 1);
    } else {
      KilledAtMostOnce(setup, next, blows[1..], i - 1, j - 1);
    }
  }

  /** Once dead, every later blow is ignored. */
  lemma {:induction false} AllIgnoredOnceDead(setup: Setup, v: Vitals, blows: seq<i32>, k: nat)
    requires v.isDead && k < |blows|
    ensures DamagedAll(setup, v, blows).1[k] == Ignored
    decreases |blows|
  {
    if k > 0 {
      AllIgnoredOnceDead(setup, v, blows[1..], k - 1);
    }
  }

  class NPCHealth {
    const setup: Setup
    /** The `enabled` flags of the colliders under this object. */
    const colliders: array<bool>
    var currentHealth: i32
    var isDead: bool

    function Model(): Vitals
      reads this
    {
      Vitals(currentHealth, isDead)
    }

    constructor (setup: Setup, colliders: array<bool>, currentHealth: i32)
      ensures this.setup == setup && this.colliders == colliders
      ensures Model() == Vitals(currentHealth, false)
    {
      this.setup := setup;
      this.colliders := colliders;
      this.currentHealth := currentHealth;
      isDead := false;
    }

    method Start()
      modifies this
      ensures Model() == Started(setup, old(Model()))
    {
      currentHealth := setup.maxHealth;
    }

    method TakeDamage(damage: i32) returns (hit: Hit)
      modifies this, colliders
      ensures (Model(), hit) == Damaged(setup, old(Model()), damage)
      ensures hit == Killed(Fallback(setup.hasAnimator, setup.destroyDelay)) ==> forall k :: 0 <= k < colliders.Length ==> !colliders[k]
      ensures !hit.Killed? || !hit.death.Fallback? ==> colliders[..] == old(colliders[..])
    {
      if isDead {
        return Ignored;
      }
      currentHealth := Wrap(currentHealth - damage);
      if currentHealth <= 0 {
        var death := Die();
        hit := Killed(death);
      } else {
        hit := Hurt(setup.hasAnimator);
      }
    }

    method Die() returns (death: Death)
      modifies this, colliders
      ensures (Model(), death) == Died(setup, old(Model()))
      ensures death.Fallback? ==> forall k :: 0 <= k < colliders.Length ==> !colliders[k]
      ensures !death.Fallback? ==> colliders[..] == old(colliders[..])
    {
      if isDead {
        return AlreadyDead;
      }
      isDead := true;
      if setup.handleDeathLogic && setup.hasHealthcare {
        return Delegated;
      }
      for i := 0 to colliders.Length
        invariant forall k :: 0 <= k < i ==> !colliders[k]
        modifies colliders
      {
        colliders[i] := false;
      }
      death := Fallback(setup.hasAnimator, setup.destroyDelay);
    }
  }
}
