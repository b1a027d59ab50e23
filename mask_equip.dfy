/** `Player.MaskEquipController`: puts the held mask on or takes it off
    through a timed coroutine, guarded by an "animating" flag. */
module MaskEquip {
  import opened Scene
  import opened Text
  import Pickup

  /** One running `EquipMaskRoutine(maskItem, equip)` waiting out its
      `animationDuration`. */
  datatype Routine = Routine(maskItem: GameObject, equip: bool)

  /** `IsMaskEquipped`, `IsAnimating`, and the routines still running, oldest
      first. All wait the same duration, so they complete in start order. */
  datatype Equip = Equip(isMaskEquipped: bool, isAnimating: bool, running: seq<Routine>)

  /** A `SetActive` on the mask object that a step performs. */
  datatype Visibility = Keep | Show(item: GameObject) | Hide(item: GameObject)

  /** `ResetState`: both flags cleared; a running routine is not stopped. */
  function Reset(e: Equip): (r: Equip)
    ensures !r.isMaskEquipped && !r.isAnimating && r.running == e.running
  {
    e.(isMaskEquipped := false, isAnimating := false)
  }

  /** `ToggleMask` (with `request` true) and `HandleMaskInput` (with `request`
      the click): with a pickup component, a held item whose lower-cased name
      contains "mask" and no animation under way, a routine toward the
      opposite state starts, raising the animating flag at once and showing
      the mask first when it is coming off. Otherwise nothing happens. */
  function Begun(e: Equip, hasPickup: bool, held: GameObject?, request: bool): (r: (Equip, Visibility))
    ensures var go := hasPickup && held != null && !e.isAnimating && Contains(ToLower(held.name), "mask") && request;
            (go ==> r.0 == Equip(e.isMaskEquipped, true, e.running + [Routine(held, !e.isMaskEquipped)])
                    && r.1 == (if e.isMaskEquipped then Show(held) else Keep))
            && (!go ==> r == (e, Keep))
  {
    if !hasPickup || held == null || e.isAnimating then (e, Keep)
    else if !Contains(ToLower(held.name), "mask") then (e, Keep)
    else if !request then (e, Keep)
    else
      var equip := !e.isMaskEquipped;
      (Equip(e.isMaskEquipped, true, e.running + [Routine(held, equip)]), if !equip then Show(held) else Keep)
  }

  /** The oldest routine finishing its wait: the equipped flag takes the value
      it was started with, animating ends, and an equipped mask is hidden. */
  function Completed(e: Equip): (r: (Equip, Visibility))
    requires e.running != []
    ensures r.0.isMaskEquipped == e.running[0].equip && !r.0.isAnimating
    ensures r.0.running == e.running[1..]
    ensures r.1 == if e.running[0].equip then Hide(e.running[0].maskItem) else Keep
  {
    var routine := e.running[0];
    (Equip(routine.equip, false, e.running[1..]), if routine.equip then Hide(routine.maskItem) else Keep)
  }

  /** The guard's promise: the animating flag is raised exactly while one
      routine runs, and never more than one runs. */
  predicate AtMostOneInFlight(e: Equip)
  {
    |e.running| <= 1 && (e.isAnimating <==> |e.running| == 1)
  }

  lemma BeginKeepsOneInFlight(e: Equip, hasPickup: bool, held: GameObject?, request: bool)
    requires AtMostOneInFlight(e)
    ensures AtMostOneInFlight(Begun(e, hasPickup, held, request).0)
  {
  }

  lemma CompleteKeepsOneInFlight(e: Equip)
    requires AtMostOneInFlight(e) && e.running != []
    ensures AtMostOneInFlight(Completed(e).0)
  {
  }

  /** The guard can be defeated: `ResetState` while a routine runs lowers the
      flag, so a second routine can start beside the first, and the first to
      finish then raises nothing while the second still runs. */
  lemma ResetAllowsTwoInFlight(mask: GameObject)
    requires Contains(ToLower(mask.name), "mask")
    ensures var e1 := Begun(Equip(false, false, []), true, mask, true).0;
            var e2 := Begun(Reset(e1), true, mask, true).0;
            |e2.running| == 2 && !AtMostOneInFlight(e2)
            && var e3 := Completed(e2).0; !e3.isAnimating && |e3.running| == 1
  {
  }

  /** Putting the mask on and taking it off again, each run to completion,
      returns to the unequipped state with the mask visible during the
      unequip and hidden after the equip. */
  lemma EquipThenUnequip(mask: GameObject)
    requires Contains(ToLower(mask.name), "mask")
    ensures var b1 := Begun(Equip(false, false, []), true, mask, true);
            var c1 := Completed(b1.0);
            var b2 := Begun(c1.0, true, mask, true);
            var c2 := Completed(b2.0);
            c1.0 == Equip(true, false, []) && c1.1 == Hide(mask)
            && b2.1 == Show(mask) && c2.0 == Equip(false, false, [])
  {
  }

  class MaskEquipController {
    var playerPickup: Pickup.PlayerPickup?
    var animationDuration: real
    var isMaskEquipped: bool
    var isAnimating: bool
    /** The coroutines this component has started and not yet finished. */
    var running: seq<Routine>

    function Model(): Equip
      reads this
    {
      Equip(isMaskEquipped, isAnimating, running)
    }

    /** The component with its Inspector default (2-second animation), idle. */
    constructor (playerPickup: Pickup.PlayerPickup?)
      ensures this.playerPickup == playerPickup && animationDuration == 2.0
      ensures Model() == Equip(false, false, [])
    {
      this.playerPickup := playerPickup;
      animationDuration := 2.0;
      isMaskEquipped := false;
      isAnimating := false;
      running := [];
    }

    /** `found` is what `GetComponentInParent<PlayerPickup>()` returns. */
    method Start(found: Pickup.PlayerPickup?)
      modifies this`playerPickup
      ensures playerPickup == if old(playerPickup) == null then found else old(playerPickup)
    {
      if playerPickup == null {
        playerPickup := found;
      }
    }

    method ResetState()
      modifies this`isMaskEquipped, this`isAnimating
      ensures Model() == Reset(old(Model()))
    {
      isMaskEquipped := false;
      isAnimating := false;
    }

    method ToggleMask() returns (visibility: Visibility)
      modifies this`isAnimating, this`running
      ensures (Model(), visibility)
           == Begun(old(Model()), playerPickup != null, if playerPickup == null then null else playerPickup.heldItem, true)
    {
      if playerPickup == null {
        return Keep;
      }
      var heldItem := playerPickup.heldItem;
      if heldItem == null || isAnimating {
        return Keep;
      }
      if !Contains(ToLower(heldItem.name), "mask") {
        return Keep;
      }
      visibility := EquipMaskRoutine(heldItem, !isMaskEquipped);
    }

    /** `Update`: `clicked` is whether the left mouse button went down this frame. */
    method HandleMaskInput(clicked: bool) returns (visibility: Visibility)
      modifies this`isAnimating, this`running
      ensures (Model(), visibility)
           == Begun(old(Model()), playerPickup != null, if playerPickup == null then null else playerPickup.heldItem, clicked)
    {
      if playerPickup == null {
        return Keep;
      }
      var heldItem := playerPickup.heldItem;
      if heldItem == null || isAnimating {
        return Keep;
      }
      if !Contains(ToLower(heldItem.name), "mask") {
        return Keep;
      }
      visibility := Keep;
      if clicked {
        visibility := EquipMaskRoutine(heldItem, !isMaskEquipped);
      }
    }

    /** `StartCoroutine(EquipMaskRoutine(maskItem, equip))` up to its wait. */
    method EquipMaskRoutine(maskItem: GameObject, equip: bool) returns (visibility: Visibility)
      modifies this`isAnimating, this`running
      ensures isAnimating && running == old(running) + [Routine(maskItem, equip)]
      ensures visibility == if !equip then Show(maskItem) else Keep
    {
      isAnimating := true;
      visibility := Keep;
      if !equip {
        visibility := Show(maskItem);
      }
      running := running + [Routine(maskItem, equip)];
    }

    /** The oldest running routine resuming after its wait. */
    method ResumeRoutine() returns (visibility: Visibility)
      requires running != []
      modifies this`isMaskEquipped, this`isAnimating, this`running
      ensures (Model(), visibility) == Completed(old(Model()))
    {
      var routine := running[0];
      running := running[1..];
      isMaskEquipped := routine.equip;
      isAnimating := false;
      visibility := Keep;
      if routine.equip {
        visibility := Hide(routine.maskItem);
      }
    }
  }
}
