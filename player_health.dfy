/** `Player.PlayerHealth`: integer health with a one-shot death and a bonus
    granted while a nurse accompanies the player. */
module PlayerVitals {
  import opened Int32

  /** The fields `maxHealth`, `currentHealth`, `_isDead` and `HasNurse`. */
  datatype Vitals = Vitals(maxHealth: i32, currentHealth: i32, isDead: bool, hasNurse: bool)

  /** A state together with whether `Die`'s body ran (movement and attack
      disabled, scene reload scheduled). */
  datatype Outcome = Outcome(vitals: Vitals, died: bool)

  /** `Start`: the player begins at full health. */
  function Started(v: Vitals): (r: Vitals)
    ensures r.currentHealth == r.maxHealth == v.maxHealth
    ensures r.isDead == v.isDead && r.hasNurse == v.hasNurse
  {
    v.(currentHealth := v.maxHealth)
  }

  /** `Die`: marks the player dead the first time only. */
  function Died(v: Vitals): (r: Outcome)
    ensures r.vitals.isDead
    ensures r.died <==> !v.isDead
    ensures r.vitals == v.(isDead := true)
  {
    if v.isDead then Outcome(v, false) else Outcome(v.(isDead := true), true)
  }

  /** `TakeDamage(damage)`: ignored once dead; otherwise the damage is
      subtracted (with 32-bit wrap-around) and a health of 0 or less kills. */
  function Damaged(v: Vitals, damage: i32): (r: Outcome)
    ensures v.isDead ==> r == Outcome(v, false)
    ensures !v.isDead ==> r.vitals.currentHealth == Wrap(v.currentHealth - damage)
    ensures !v.isDead ==> (r.died <==> r.vitals.currentHealth <= 0)
    ensures r.vitals.isDead <==> v.isDead || r.died
    ensures r.vitals.maxHealth == v.maxHealth && r.vitals.hasNurse == v.hasNurse
  {
    if v.isDead then Outcome(v, false)
    else
      var hurt := v.(currentHealth := Wrap(v.currentHealth - damage));
      if hurt.currentHealth <= 0 then Died(hurt) else Outcome(hurt, false)
  }

  /** `GrantBonusHealth(amount)`: only without a nurse; raises both the maximum
      and the current health by the amount. */
  function Granted(v: Vitals, amount: i32): (r: Vitals)
    ensures v.hasNurse ==> r == v
    ensures !v.hasNurse ==> r.hasNurse
    ensures !v.hasNurse ==> r.maxHealth == Wrap(v.maxHealth + amount)
    ensures !v.hasNurse ==> r.currentHealth == Wrap(v.currentHealth + amount)
    ensures r.isDead == v.isDead
  {
    if v.hasNurse then v
    else Vitals(Wrap(v.maxHealth + amount), Wrap(v.currentHealth + amount), v.isDead, true)
  }

  /** `RevokeBonusHealth(amount)`: only with a nurse; lowers the maximum, cuts
      the current health down to it, and keeps a living player at 1 or more,
      even when that leaves the current health above a maximum below 1. */
  function Revoked(v: Vitals, amount: i32): (r: Vitals)
    ensures !v.hasNurse ==> r == v
    ensures v.hasNurse ==> !r.hasNurse && r.maxHealth == Wrap(v.maxHealth - amount)
    ensures v.hasNurse ==> r.currentHealth <= r.maxHealth || (r.currentHealth == 1 && !r.isDead)
    ensures v.hasNurse && !v.isDead ==> r.currentHealth >= 1
    ensures v.hasNurse && 1 <= v.currentHealth <= r.maxHealth ==> r.currentHealth == v.currentHealth
    ensures v.hasNurse && v.currentHealth > r.maxHealth ==> r.currentHealth == if r.maxHealth < 1 && !v.isDead then 1 else r.maxHealth
    ensures v.hasNurse && v.currentHealth <= r.maxHealth && v.currentHealth < 1 ==> r.currentHealth == if v.isDead then v.currentHealth else 1
    ensures r.currentHealth <= v.currentHealth || (r.currentHealth == 1 && !r.isDead)
    ensures r.isDead == v.isDead
  {
    if !v.hasNurse then v
    else
      var maxHealth := Wrap(v.maxHealth - amount);
      var capped := if v.currentHealth > maxHealth then maxHealth else v.currentHealth;
      var kept := if capped < 1 && !v.isDead then 1 else capped;
      Vitals(maxHealth, kept, v.isDead, false)
  }

  /** `Heal(amount)`: ignored when dead; otherwise adds the amount and caps the
      result at the maximum. */
  function Healed(v: Vitals, amount: i32): (r: Vitals)
    ensures v.isDead ==> r == v
    ensures !v.isDead ==> r.currentHealth <= v.maxHealth
    ensures !v.isDead && Wrap(v.currentHealth + amount) <= v.maxHealth ==> r.currentHealth == Wrap(v.currentHealth + amount)
    ensures !v.isDead && Wrap(v.currentHealth + amount) > v.maxHealth ==> r.currentHealth == v.maxHealth
    ensures r.maxHealth == v.maxHealth && r.isDead == v.isDead && r.hasNurse == v.hasNurse
  {
    if v.isDead then v
    else
      var raised := Wrap(v.currentHealth + amount);
      v.(currentHealth := if raised > v.maxHealth then v.maxHealth else raised)
  }

  /** Granting and then revoking the same bonus gives back the original
      maximum, even across a wrap-around, and the nurse is gone again. */
  lemma GrantThenRevoke(v: Vitals, amount: i32)
    requires !v.hasNurse
    ensures Revoked(Granted(v, amount), amount).maxHealth == v.maxHealth
    ensures !Revoked(Granted(v, amount), amount).hasNurse
  {
    WrapAddSub(v.maxHealth, amount);
  }

  /** A second grant while the nurse is still there changes nothing. */
  lemma SecondGrantIsNoOp(v: Vitals, first: i32, second: i32)
    ensures Granted(Granted(v, first), second) == Granted(v, first)
  {
  }

  /** Death happens once: after a killing blow every later blow is ignored. */
  lemma {:induction false} DeadStaysDead(v: Vitals, blows: seq<i32>)
    requires v.isDead
    ensures DamagedAll(v, blows) == v
    decreases |blows|
  {
    if blows != [] {
      DeadStaysDead(Damaged(v, blows[0]).vitals, blows[1..]);
    }
  }

  /** The state after a sequence of `TakeDamage` calls. */
  function DamagedAll(v: Vitals, blows: seq<i32>): Vitals
    decreases |blows|
  {
    if blows == [] then v else DamagedAll(Damaged(v, blows[0]).vitals, blows[1..])
  }

  class PlayerHealth {
    var maxHealth: i32
    var currentHealth: i32
    var isDead: bool
    var hasNurse: bool

    function Model(): Vitals
      reads this
    {
      Vitals(maxHealth, currentHealth, isDead, hasNurse)
    }

    /** The component as the scene sets it up (`maxHealth` defaults to 1). */
    constructor (maxHealth: i32, currentHealth: i32)
      ensures Model() == Vitals(maxHealth, currentHealth, false, false)
    {
      this.maxHealth := maxHealth;
      this.currentHealth := currentHealth;
      isDead := false;
      hasNurse := false;
    }

    method Start()
      modifies this
      ensures Model() == Started(old(Model()))
    {
      currentHealth := maxHealth;
    }

    method TakeDamage(damage: i32) returns (died: bool)
      modifies this
      ensures Outcome(Model(), died) == Damaged(old(Model()), damage)
    {
      died := false;
      if isDead {
        return;
      }
      currentHealth := Wrap(currentHealth - damage);
      if currentHealth <= 0 {
        died := Die();
      }
    }

    method GrantBonusHealth(amount: i32)
      modifies this
      ensures Model() == Granted(old(Model()), amount)
    {
      if hasNurse {
        return;
      }
      hasNurse := true;
      maxHealth := Wrap(maxHealth + amount);
      currentHealth := Wrap(currentHealth + amount);
    }

    method RevokeBonusHealth(amount: i32)
      modifies this
      ensures Model() == Revoked(old(Model()), amount)
    {
      if !hasNurse {
        return;
      }
      hasNurse := false;
      maxHealth := Wrap(maxHealth - amount);
      if currentHealth > maxHealth {
        currentHealth := maxHealth;
      }
      if currentHealth < 1 && !isDead {
        currentHealth := 1;
      }
    }

    method Die() returns (ran: bool)
      modifies this
      ensures Outcome(Model(), ran) == Died(old(Model()))
    {
      if isDead {
        return false;
      }
      isDead := true;
      ran := true;
    }

    method Heal(amount: i32)
      modifies this
      ensures Model() == Healed(old(Model()), amount)
    {
      if isDead {
        return;
      }
      currentHealth := Wrap(currentHealth + amount);
      if currentHealth > maxHealth {
        currentHealth := maxHealth;
      }
    }
  }
}
