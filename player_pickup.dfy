/** `Player.PlayerPickup`: the player's four inventory slots (weapon,
    document, mask 1, mask 2), the one held item, nearest-item pickup with
    routing by name, slot switching, dropping and consuming, and the mask
    flags its own equip routine sets. */
module Pickup {
  import opened Scene
  import opened Text
  import opened Int32
  import Inventory

  /** The fields `_weaponSlot`, `_documentSlot`, `_maskSlot1`, `_maskSlot2`,
      `_heldItem`, `_isMaskEquipped`, `_isAnimatingMask`, `CurrentMaskType`
      and `isWeapon`. */
  datatype Pocket = Pocket(weaponSlot: GameObject?, documentSlot: GameObject?,
                           maskSlot1: GameObject?, maskSlot2: GameObject?,
                           heldItem: GameObject?, isMaskEquipped: bool, isAnimatingMask: bool,
                           currentMaskType: MaskType, isWeapon: bool)

  /** The slot keys 1 to 4. */
  predicate IsSlot(slotIndex: int)
  {
    1 <= slotIndex <= 4
  }

  /** The slots in key order. */
  function Slots(p: Pocket): seq<GameObject?>
  {
    [p.weaponSlot, p.documentSlot, p.maskSlot1, p.maskSlot2]
  }

  /** `GetItemInSlot`: keys 1 to 4 read the slots in order; any other key
      reads null. */
  function GetItemInSlot(p: Pocket, slotIndex: int): (r: GameObject?)
    ensures IsSlot(slotIndex) ==> r == Slots(p)[slotIndex - 1]
    ensures !IsSlot(slotIndex) ==> r == null
  {
    match slotIndex
    case 1 => p.weaponSlot
    case 2 => p.documentSlot
    case 3 => p.maskSlot1
    case 4 => p.maskSlot2
    case _ => null
  }

  /** Everything outside the four slots agrees. */
  predicate SameButSlots(p: Pocket, q: Pocket)
  {
    q.heldItem == p.heldItem && q.isMaskEquipped == p.isMaskEquipped && q.isAnimatingMask == p.isAnimatingMask
    && q.currentMaskType == p.currentMaskType && q.isWeapon == p.isWeapon
  }

  /** `SetItemInSlot`: a write to keys 1 to 4 is read back by the same key
      and by no other; a write to any other key changes nothing. */
  function WithItemInSlot(p: Pocket, slotIndex: int, item: GameObject?): (r: Pocket)
    ensures IsSlot(slotIndex) ==> GetItemInSlot(r, slotIndex) == item
    ensures forall j :: j != slotIndex ==> GetItemInSlot(r, j) == GetItemInSlot(p, j)
    ensures !IsSlot(slotIndex) ==> r == p
    ensures SameButSlots(p, r)
  {
    match slotIndex
    case 1 => p.(weaponSlot := item)
    case 2 => p.(documentSlot := item)
    case 3 => p.(maskSlot1 := item)
    case 4 => p.(maskSlot2 := item)
    case _ => p
  }

  /** `DropItem` and `ConsumeHeldItem` (which differ only in whether the
      object is unparented or destroyed): nothing without a held item;
      otherwise the UI hears that the item is no longer held, every slot that
      referenced it is emptied, and nothing is held. */
  function Released(p: Pocket): (r: (Pocket, seq<Inventory.Notice>))
    ensures p.heldItem == null ==> r == (p, [])
    ensures p.heldItem != null ==> r.0.heldItem == null && r.1 == [Inventory.ItemStatus(p.heldItem.name, false)]
    ensures forall j :: GetItemInSlot(r.0, j) == if GetItemInSlot(p, j) == p.heldItem then null else GetItemInSlot(p, j)
    ensures SameButSlots(p, r.0.(heldItem := p.heldItem))
  {
    if p.heldItem == null then (p, [])
    else
      var h := p.heldItem;
      (p.(weaponSlot := if p.weaponSlot == h then null else p.weaponSlot,
          documentSlot := if p.documentSlot == h then null else p.documentSlot,
          maskSlot1 := if p.maskSlot1 == h then null else p.maskSlot1,
          maskSlot2 := if p.maskSlot2 == h then null else p.maskSlot2,
          heldItem := null),
       [Inventory.ItemStatus(h.name, false)])
  }

  /** `SwitchToSlot`: the mask state is always reset (not equipped, not
      animating, no mask type) and the held item becomes the slot's content,
      possibly nothing; the UI hears of the new held item. Slots do not change. */
  function Switched(p: Pocket, slotIndex: int): (r: (Pocket, seq<Inventory.Notice>))
    ensures Slots(r.0) == Slots(p)
    ensures r.0.heldItem == GetItemInSlot(p, slotIndex)
    ensures !r.0.isMaskEquipped && !r.0.isAnimatingMask && r.0.currentMaskType == None && r.0.isWeapon == p.isWeapon
    ensures r.1 == if r.0.heldItem == null then [] else [Inventory.ItemStatus(r.0.heldItem.name, true)]
  {
    var newItem := GetItemInSlot(p, slotIndex);
    var q := p.(isMaskEquipped := false, isAnimatingMask := false, currentMaskType := None, heldItem := newItem);
    if newItem != null then (q, [Inventory.ItemStatus(newItem.name, true)]) else (q, [])
  }

  /** Whether `PickupToSlot` drops the held item: the target slot is occupied
      by exactly the item in hand. */
  predicate DropsHeld(p: Pocket, slotIndex: int)
  {
    GetItemInSlot(p, slotIndex) != null && p.heldItem == GetItemInSlot(p, slotIndex)
  }

  /** `PickupToSlot`: the previous occupant of the slot is ejected (dropped,
      if it is the held item), the new item takes the slot and is switched to.
      Afterwards the new item is held and in the slot, the mask state is
      reset, and every other slot is as before except that a dropped held
      item is gone from all of them. */
  function Stored(p: Pocket, item: GameObject, slotIndex: int): (r: (Pocket, seq<Inventory.Notice>))
    requires IsSlot(slotIndex)
    ensures r.0.heldItem == item && GetItemInSlot(r.0, slotIndex) == item
    ensures forall j :: j != slotIndex ==>
              GetItemInSlot(r.0, j) == if DropsHeld(p, slotIndex) && GetItemInSlot(p, j) == p.heldItem then null
                                       else GetItemInSlot(p, j)
    ensures !r.0.isMaskEquipped && !r.0.isAnimatingMask && r.0.currentMaskType == None && r.0.isWeapon == p.isWeapon
    ensures r.1 == (if DropsHeld(p, slotIndex) then [Inventory.ItemStatus(p.heldItem.name, false)] else [])
                   + [Inventory.ItemStatus(item.name, true)]
  {
    var dropped := if DropsHeld(p, slotIndex) then Released(p) else (p, []);
    var placed := WithItemInSlot(dropped.0, slotIndex, item);
    var switched := Switched(placed, slotIndex);
    (switched.0, dropped.1 + switched.1)
  }

  /** What `TryPickupItem` does with the chosen item. */
  datatype Plan = Consume | Store(slot: int)

  /** The routing by lower-cased name, in the source's order: a "paper"
      that is not a "document" is consumed; a "document" goes to slot 2; a
      "mask" goes to the first empty mask slot, or overwrites slot 3 when both
      are full; anything else goes to the weapon slot 1. */
  function PlanFor(p: Pocket, itemName: string): (r: Plan)
    ensures r == Consume <==> Contains(ToLower(itemName), "paper") && !Contains(ToLower(itemName), "document")
    ensures Contains(ToLower(itemName), "document") ==> r == Store(2)
    ensures !Contains(ToLower(itemName), "paper") && !Contains(ToLower(itemName), "document") && Contains(ToLower(itemName), "mask") ==>
              r == Store(if p.maskSlot1 != null && p.maskSlot2 == null then 4 else 3)
    ensures !Contains(ToLower(itemName), "paper") && !Contains(ToLower(itemName), "document") && !Contains(ToLower(itemName), "mask") ==>
              r == Store(1)
    ensures r.Store? ==> IsSlot(r.slot)
  {
    var lowerName := ToLower(itemName);
    if Contains(lowerName, "paper") && !Contains(lowerName, "document") then Consume
    else if Contains(lowerName, "document") then Store(2)
    else if Contains(lowerName, "mask") then
      Store(if p.maskSlot1 == null then 3 else if p.maskSlot2 == null then 4 else 3)
    else Store(1)
  }

  /** A mask never evicts another mask while a mask slot is free. */
  lemma MaskTakesFreeSlot(p: Pocket, itemName: string)
    requires Contains(ToLower(itemName), "mask") && !Contains(ToLower(itemName), "paper") && !Contains(ToLower(itemName), "document")
    requires p.maskSlot1 == null || p.maskSlot2 == null
    ensures PlanFor(p, itemName).Store? && GetItemInSlot(p, PlanFor(p, itemName).slot) == null
  {
  }

  /** The `isWeapon` test: "balisong", "knife" or "weapon" in the lower-cased name. */
  predicate IsWeaponName(itemName: string)
  {
    Contains(ToLower(itemName), "balisong") || Contains(ToLower(itemName), "knife") || Contains(ToLower(itemName), "weapon")
  }

  /** `float.MaxValue`, the starting value of `closestDistance`. */
  const FloatMax: real := 340282346638528859811704183484516925440.0

  predicate Tagged(c: Candidate, itemTags: seq<string>)
  {
    c.obj.tag in itemTags
  }

  /** The candidate `TryPickupItem` settles on, or |cands| for none: one with
      an item tag, strictly closer than `float.MaxValue`, no farther than any
      tagged candidate, and strictly closer than every tagged candidate
      before it (on a tie the earliest wins). */
  function NearestTagged(cands: seq<Candidate>, itemTags: seq<string>): (k: nat)
    ensures k <= |cands|
    ensures k < |cands| ==> Tagged(cands[k], itemTags) && cands[k].distance < FloatMax
    ensures k < |cands| ==> forall i :: 0 <= i < |cands| && Tagged(cands[i], itemTags) ==> cands[k].distance <= cands[i].distance
    ensures k < |cands| ==> forall i :: 0 <= i < k && Tagged(cands[i], itemTags) ==> cands[k].distance < cands[i].distance
    ensures k == |cands| ==> forall i :: 0 <= i < |cands| && Tagged(cands[i], itemTags) ==> cands[i].distance >= FloatMax
    decreases |cands|
  {
    if cands == [] then 0
    else
      var last := |cands| - 1;
      var k := NearestTagged(cands[..last], itemTags);
      var closestDistance := if k < last then cands[k].distance else FloatMax;
      if Tagged(cands[last], itemTags) && cands[last].distance < closestDistance then last
      else if k < last then k
      else |cands|
  }

  /** What a pickup attempt did: the new pocket, the UI calls in order,
      whether something was collected, and whether `DocumentFound` was called. */
  datatype Pick = Pick(pocket: Pocket, notices: seq<Inventory.Notice>, picked: bool, documentFound: bool)

  /** The part of `TryPickupItem` after the nearest item is chosen. A
      consumed paper is reported to the UI as held and changes nothing else;
      any other item sets `isWeapon` from its name and is stored by `PlanFor`,
      a document also counting as found. */
  function Collected(p: Pocket, item: GameObject): (r: Pick)
    ensures r.picked
    ensures PlanFor(p, item.name) == Consume ==> r == Pick(p, [Inventory.ItemStatus(item.name, true)], true, false)
    ensures PlanFor(p, item.name).Store? ==>
              r.pocket.heldItem == item && GetItemInSlot(r.pocket, PlanFor(p, item.name).slot) == item
              && r.pocket.isWeapon == IsWeaponName(item.name)
              && |r.notices| > 0 && r.notices[|r.notices| - 1] == Inventory.ItemStatus(item.name, true)
    ensures PlanFor(p, item.name).Store? ==>
              (r.pocket, r.notices) == Stored(p.(isWeapon := IsWeaponName(item.name)), item, PlanFor(p, item.name).slot)
    ensures r.documentFound <==> Contains(ToLower(item.name), "document")
  {
    match PlanFor(p, item.name)
    case Consume => Pick(p, [Inventory.ItemStatus(item.name, true)], true, false)
    case Store(slot) =>
      var stored := Stored(p.(isWeapon := IsWeaponName(item.name)), item, slot);
      Pick(stored.0, stored.1, true, slot == 2)
  }

  /** `TryPickupItem`: nothing without a candidate; otherwise the nearest
      tagged candidate is collected. */
  function PickedUp(p: Pocket, cands: seq<Candidate>, itemTags: seq<string>): (r: Pick)
    ensures r.picked <==> NearestTagged(cands, itemTags) < |cands|
    ensures !r.picked ==> r == Pick(p, [], false, false)
    ensures r.picked ==> r == Collected(p, cands[NearestTagged(cands, itemTags)].obj)
  {
    var k := NearestTagged(cands, itemTags);
    if k == |cands| then Pick(p, [], false, false)
    else Collected(p, cands[k].obj)
  }

  /** `OnInteract`: a pickup takes precedence; only when nothing is picked up
      is the held item dropped, and then only with no mask equipped or
      animating. */
  function Interacted(p: Pocket, cands: seq<Candidate>, itemTags: seq<string>): (r: Pick)
    ensures PickedUp(p, cands, itemTags).picked ==> r == PickedUp(p, cands, itemTags)
    ensures !PickedUp(p, cands, itemTags).picked && p.heldItem != null && !p.isMaskEquipped && !p.isAnimatingMask ==>
              r == Pick(Released(p).0, Released(p).1, false, false)
    ensures !PickedUp(p, cands, itemTags).picked && !(p.heldItem != null && !p.isMaskEquipped && !p.isAnimatingMask) ==>
              r == Pick(p, [], false, false)
  {
    var pick := PickedUp(p, cands, itemTags);
    if pick.picked then pick
    else if p.heldItem != null && !p.isMaskEquipped && !p.isAnimatingMask then
      var released := Released(p);
      Pick(released.0, released.1, false, false)
    else pick
  }

  /** `HandleMaskInput` and the first half of `EquipMaskRoutine`: with a held
      item whose lower-cased name contains "mask", no routine animating and a
      click, a routine starts toward the opposite of the current equipped state
      and the animating flag is raised at once. Returns the pocket and the
      requested state, if one started. */
  function MaskBegun(p: Pocket, clicked: bool): (r: (Pocket, bool, bool))
    ensures r.1 <==> clicked && p.heldItem != null && !p.isAnimatingMask && Contains(ToLower(p.heldItem.name), "mask")
    ensures r.1 ==> r.0 == p.(isAnimatingMask := true) && r.2 == !p.isMaskEquipped
    ensures !r.1 ==> r.0 == p
  {
    if p.heldItem == null || p.isAnimatingMask then (p, false, false)
    else if !Contains(ToLower(p.heldItem.name), "mask") then (p, false, false)
    else if clicked then (p.(isAnimatingMask := true), true, !p.isMaskEquipped)
    else (p, false, false)
  }

  /** The end of `EquipMaskRoutine` after its wait: the equipped flag takes
      the requested value and animating ends; an equip of a held item with a
      `MaskItem` takes that mask's type, an unequip clears the type. */
  function MaskCompleted(p: Pocket, equip: bool): (r: Pocket)
    ensures r.isMaskEquipped == equip && !r.isAnimatingMask
    ensures equip && p.heldItem != null && p.heldItem.hasMaskItem ==> r.currentMaskType == p.heldItem.maskType
    ensures !equip ==> r.currentMaskType == None
    ensures equip && (p.heldItem == null || !p.heldItem.hasMaskItem) ==> r.currentMaskType == p.currentMaskType
    ensures Slots(r) == Slots(p) && r.heldItem == p.heldItem && r.isWeapon == p.isWeapon
  {
    var q := p.(isMaskEquipped := equip, isAnimatingMask := false);
    if equip && p.heldItem != null then
      (if p.heldItem.hasMaskItem then q.(currentMaskType := p.heldItem.maskType) else q)
    else if !equip then q.(currentMaskType := None)
    else q
  }

  /** A completed equip followed by a completed unequip leaves the mask off
      with no mask type, whatever was held. */
  lemma EquipThenUnequip(p: Pocket)
    ensures var q := MaskCompleted(MaskCompleted(p, true), false);
            !q.isMaskEquipped && !q.isAnimatingMask && q.currentMaskType == None
  {
  }

  /** `HandleInput`: keys 1 to 4 (`pressed[i]` for key i + 1) switch in key
      order within the same frame. */
  function KeysHandled(p: Pocket, pressed: seq<bool>): (r: (Pocket, seq<Inventory.Notice>))
    decreases |pressed|
  {
    if pressed == [] then (p, [])
    else
      var before := KeysHandled(p, pressed[..|pressed| - 1]);
      if pressed[|pressed| - 1] then
        var after := Switched(before.0, |pressed|);
        (after.0, before.1 + after.1)
      else before
  }

  /** Switching never changes the slots, and when several keys are pressed in
      one frame the highest one decides what is held. */
  lemma {:induction false} HighestKeyWins(p: Pocket, pressed: seq<bool>, k: nat)
    requires k < |pressed| && pressed[k]
    requires forall j :: k < j < |pressed| ==> !pressed[j]
    ensures Slots(KeysHandled(p, pressed).0) == Slots(p)
    ensures KeysHandled(p, pressed).0.heldItem == GetItemInSlot(p, k + 1)
    decreases |pressed|
  {
    var n := |pressed| - 1;
    if n == k {
      SlotsUnchanged(p, pressed[..n]);
    } else {
      HighestKeyWins(p, pressed[..n], k);
    }
  }

  lemma {:induction false} SlotsUnchanged(p: Pocket, pressed: seq<bool>)
    ensures Slots(KeysHandled(p, pressed).0) == Slots(p)
    decreases |pressed|
  {
    if pressed != [] {
      SlotsUnchanged(p, pressed[..|pressed| - 1]);
    }
  }

  /** The held item, if any, is one of the slots. */
  predicate HeldInSlot(p: Pocket)
  {
    p.heldItem == null || p.heldItem in Slots(p)
  }

  /** No object occupies two slots. */
  predicate DistinctSlots(p: Pocket)
  {
    forall i, j :: 0 <= i < j < 4 && Slots(p)[i] != null ==> Slots(p)[i] != Slots(p)[j]
  }

  /** Interacting keeps the held item in a slot. */
  lemma InteractKeepsHeldInSlot(p: Pocket, cands: seq<Candidate>, itemTags: seq<string>)
    requires HeldInSlot(p)
    ensures HeldInSlot(Interacted(p, cands, itemTags).pocket)
  {
    var k := NearestTagged(cands, itemTags);
    if k < |cands| && PlanFor(p, cands[k].obj.name).Store? {
      var slot := PlanFor(p, cands[k].obj.name).slot;
      var q := PickedUp(p, cands, itemTags).pocket;
      assert GetItemInSlot(q, slot) == q.heldItem;
    }
  }

  /** Storing an item that is in no slot keeps the slots distinct. */
  lemma StoreKeepsSlotsDistinct(p: Pocket, item: GameObject, slotIndex: int)
    requires IsSlot(slotIndex) && DistinctSlots(p) && item !in Slots(p)
    ensures DistinctSlots(Stored(p, item, slotIndex).0)
  {
    var q := Stored(p, item, slotIndex).0;
    forall i, j | 0 <= i < j < 4 && Slots(q)[i] != null
      ensures Slots(q)[i] != Slots(q)[j]
    {
      assert Slots(q)[i] == GetItemInSlot(q, i + 1) && Slots(q)[j] == GetItemInSlot(q, j + 1);
      assert Slots(p)[i] == GetItemInSlot(p, i + 1) && Slots(p)[j] == GetItemInSlot(p, j + 1);
    }
  }

  /** With distinct slots a drop empties exactly the held item's own slot. */
  lemma DropEmptiesOneSlot(p: Pocket, k: int)
    requires DistinctSlots(p) && IsSlot(k) && p.heldItem != null && GetItemInSlot(p, k) == p.heldItem
    ensures GetItemInSlot(Released(p).0, k) == null
    ensures forall j :: j != k ==> GetItemInSlot(Released(p).0, j) == GetItemInSlot(p, j)
  {
    forall j | j != k
      ensures GetItemInSlot(Released(p).0, j) == GetItemInSlot(p, j)
    {
      if IsSlot(j) {
        if j < k {
          assert Slots(p)[j - 1] != Slots(p)[k - 1];
        } else {
          assert Slots(p)[k - 1] != Slots(p)[j - 1];
        }
      }
    }
  }

  /** A consumed paper changes no slot, no held item and no flag. */
  lemma ConsumeKeepsPocket(p: Pocket, cands: seq<Candidate>, itemTags: seq<string>)
    requires NearestTagged(cands, itemTags) < |cands|
    requires PlanFor(p, cands[NearestTagged(cands, itemTags)].obj.name) == Consume
    ensures Interacted(p, cands, itemTags).pocket == p
    ensures !Interacted(p, cands, itemTags).documentFound
  {
  }

  /** `PlayerDeath`'s static `documentCount`, a C# `int`. */
  class PlayerDeath {
    var documentCount: i32

    constructor ()
      ensures documentCount == 0
    {
      documentCount := 0;
    }

    method DocumentFound()
      modifies this
      ensures documentCount == Wrap(old(documentCount) + 1)
    {
      documentCount := Wrap(documentCount + 1);
    }
  }

  class PlayerPickup {
    const playerDeath: PlayerDeath
    var itemTags: seq<string>
    var heldItem: GameObject?
    var weaponSlot: GameObject?
    var documentSlot: GameObject?
    var maskSlot1: GameObject?
    var maskSlot2: GameObject?
    var isWeapon: bool
    var isMaskEquipped: bool
    var isAnimatingMask: bool
    var currentMaskType: MaskType

    function Model(): Pocket
      reads this
    {
      Pocket(weaponSlot, documentSlot, maskSlot1, maskSlot2, heldItem, isMaskEquipped, isAnimatingMask,
             currentMaskType, isWeapon)
    }

    /** Empty slots, nothing held, and the default tags "Item", "Document", "Mask". */
    constructor (playerDeath: PlayerDeath)
      ensures this.playerDeath == playerDeath && itemTags == ["Item", "Document", "Mask"]
      ensures Model() == Pocket(null, null, null, null, null, false, false, None, false)
    {
      this.playerDeath := playerDeath;
      itemTags := ["Item", "Document", "Mask"];
      heldItem := null;
      weaponSlot := null;
      documentSlot := null;
      maskSlot1 := null;
      maskSlot2 := null;
      isWeapon := false;
      isMaskEquipped := false;
      isAnimatingMask := false;
      currentMaskType := None;
    }

    /** `ui` is `InventoryUI.Instance`; `cands` the colliders of the pickup
        sphere with their distance from the camera. */
    method OnInteract(cands: seq<Candidate>, ui: Inventory.InventoryUI?)
      modifies this, ui, playerDeath
      ensures Model() == Interacted(old(Model()), cands, old(itemTags)).pocket && itemTags == old(itemTags)
      ensures ui != null ==> ui.shown == Inventory.Notify(old(ui.shown), ui.wired, Interacted(old(Model()), cands, old(itemTags)).notices)
      ensures playerDeath.documentCount
           == if Interacted(old(Model()), cands, old(itemTags)).documentFound then Wrap(old(playerDeath.documentCount) + 1)
              else old(playerDeath.documentCount)
    {
      var picked := TryPickupItem(cands, ui);
      if picked {
        return;
      }
      if heldItem != null && !isMaskEquipped && !isAnimatingMask {
        DropItem(ui);
      }
    }

    method TryPickupItem(cands: seq<Candidate>, ui: Inventory.InventoryUI?) returns (picked: bool)
      modifies this, ui, playerDeath
      ensures picked == PickedUp(old(Model()), cands, old(itemTags)).picked
      ensures Model() == PickedUp(old(Model()), cands, old(itemTags)).pocket && itemTags == old(itemTags)
      ensures ui != null ==> ui.shown == Inventory.Notify(old(ui.shown), ui.wired, PickedUp(old(Model()), cands, old(itemTags)).notices)
      ensures playerDeath.documentCount
           == if PickedUp(old(Model()), cands, old(itemTags)).documentFound then Wrap(old(playerDeath.documentCount) + 1)
              else old(playerDeath.documentCount)
    {
      var bestTarget: GameObject? := null;
      var closestDistance := FloatMax;
      ghost var k := 0;
      for i := 0 to |cands|
        invariant k == NearestTagged(cands[..i], itemTags)
        invariant bestTarget == if k < i then cands[k].obj else null
        invariant closestDistance == if k < i then cands[k].distance else FloatMax
      {
        assert cands[..i + 1][..i] == cands[..i];
        if cands[i].obj.tag in itemTags {
          var distance := cands[i].distance;
          if distance < closestDistance {
            closestDistance := distance;
            bestTarget := cands[i].obj;
            k := i;
          }
        }
        if k == i && bestTarget == null {
          k := i + 1;
        }
      }
      assert cands[..|cands|] == cands;
      if bestTarget != null {
        Collect(bestTarget, ui);
        return true;
      }
      return false;
    }

    /** The part of `TryPickupItem` after the nearest item is chosen: consume
        it or route it to a slot by name. */
    method Collect(bestTarget: GameObject, ui: Inventory.InventoryUI?)
      modifies this, ui, playerDeath
      ensures Model() == Collected(old(Model()), bestTarget).pocket && itemTags == old(itemTags)
      ensures ui != null ==> ui.shown == Inventory.Notify(old(ui.shown), ui.wired, Collected(old(Model()), bestTarget).notices)
      ensures playerDeath.documentCount
           == if Collected(old(Model()), bestTarget).documentFound then Wrap(old(playerDeath.documentCount) + 1)
              else old(playerDeath.documentCount)
    {
      var lowerName := ToLower(bestTarget.name);
      if Contains(lowerName, "paper") && !Contains(lowerName, "document") {
        if ui != null {
          ui.UpdateItemStatus(bestTarget.name, true);
        }
        return;
      }
      var isDocument := Contains(lowerName, "document");
      var isMask := Contains(lowerName, "mask");
      isWeapon := Contains(lowerName, "balisong") || Contains(lowerName, "knife") || Contains(lowerName, "weapon");
      if isDocument {
        PickupToSlot(bestTarget, 2, ui);
        playerDeath.DocumentFound();
      } else if isMask {
        var targetSlot := 3;
        if maskSlot1 == null {
          targetSlot := 3;
        } else if maskSlot2 == null {
          targetSlot := 4;
        } else {
          targetSlot := 3;
        }
        PickupToSlot(bestTarget, targetSlot, ui);
      } else {
        PickupToSlot(bestTarget, 1, ui);
      }
    }

    method PickupToSlot(item: GameObject, slotIndex: int, ui: Inventory.InventoryUI?)
      requires IsSlot(slotIndex)
      modifies this, ui
      ensures Model() == Stored(old(Model()), item, slotIndex).0 && itemTags == old(itemTags)
      ensures ui != null ==> ui.shown == Inventory.Notify(old(ui.shown), ui.wired, Stored(old(Model()), item, slotIndex).1)
    {
      var previousItem := ItemInSlot(slotIndex);
      if previousItem != null {
        if heldItem == previousItem {
          DropItem(ui);
        }
      }
      ghost var dropped := Model();
      ghost var shownAfterDrop := if ui != null then ui.shown else Inventory.Icons(false, false, false, false);
      SetItemInSlot(slotIndex, item);
      SwitchToSlot(slotIndex, ui);
      if ui != null {
        var n1 := if DropsHeld(old(Model()), slotIndex) then Released(old(Model())).1 else [];
        Inventory.NotifyAppend(old(ui.shown), ui.wired, n1, Switched(WithItemInSlot(dropped, slotIndex, item), slotIndex).1);
      }
    }

    method SwitchToSlot(slotIndex: int, ui: Inventory.InventoryUI?)
      modifies this, ui
      ensures Model() == Switched(old(Model()), slotIndex).0 && itemTags == old(itemTags)
      ensures ui != null ==> ui.shown == Inventory.Notify(old(ui.shown), ui.wired, Switched(old(Model()), slotIndex).1)
    {
      isMaskEquipped := false;
      isAnimatingMask := false;
      currentMaskType := None;
      var newItem := ItemInSlot(slotIndex);
      if newItem != null {
        heldItem := newItem;
        InitializeHeldItem(heldItem, ui);
      } else {
        heldItem := null;
      }
    }

    /** The UI part of `InitializeHeldItem`; the physics and parenting are visual. */
    method InitializeHeldItem(item: GameObject, ui: Inventory.InventoryUI?)
      modifies ui
      ensures ui != null ==> ui.shown == Inventory.StatusAfter(old(ui.shown), ui.wired, item.name, true)
    {
      if ui != null {
        ui.UpdateItemStatus(item.name, true);
      }
    }

    method ItemInSlot(slotIndex: int) returns (item: GameObject?)
      ensures item == GetItemInSlot(Model(), slotIndex)
    {
      match slotIndex
      case 1 => item := weaponSlot;
      case 2 => item := documentSlot;
      case 3 => item := maskSlot1;
      case 4 => item := maskSlot2;
      case _ => item := null;
    }

    method SetItemInSlot(slotIndex: int, item: GameObject?)
      modifies this`weaponSlot, this`documentSlot, this`maskSlot1, this`maskSlot2
      ensures Model() == WithItemInSlot(old(Model()), slotIndex, item)
    {
      match slotIndex
      case 1 => weaponSlot := item;
      case 2 => documentSlot := item;
      case 3 => maskSlot1 := item;
      case 4 => maskSlot2 := item;
      case _ =>
    }

    method DropItem(ui: Inventory.InventoryUI?)
      modifies this, ui
      ensures Model() == Released(old(Model())).0 && itemTags == old(itemTags)
      ensures ui != null ==> ui.shown == Inventory.Notify(old(ui.shown), ui.wired, Released(old(Model())).1)
    {
      ReleaseHeldItem(ui);
    }

    method ConsumeHeldItem(ui: Inventory.InventoryUI?)
      modifies this, ui
      ensures Model() == Released(old(Model())).0 && itemTags == old(itemTags)
      ensures ui != null ==> ui.shown == Inventory.Notify(old(ui.shown), ui.wired, Released(old(Model())).1)
    {
      ReleaseHeldItem(ui);
    }

    /** The state changes `DropItem` and `ConsumeHeldItem` share. */
    method ReleaseHeldItem(ui: Inventory.InventoryUI?)
      modifies this, ui
      ensures Model() == Released(old(Model())).0 && itemTags == old(itemTags)
      ensures ui != null ==> ui.shown == Inventory.Notify(old(ui.shown), ui.wired, Released(old(Model())).1)
    {
      if heldItem == null {
        return;
      }
      if ui != null {
        ui.UpdateItemStatus(heldItem.name, false);
      }
      if heldItem == weaponSlot {
        weaponSlot := null;
      }
      if heldItem == documentSlot {
        documentSlot := null;
      }
      if heldItem == maskSlot1 {
        maskSlot1 := null;
      }
      if heldItem == maskSlot2 {
        maskSlot2 := null;
      }
      heldItem := null;
    }

    /** `pressed[i]` says whether key i + 1 went down this frame. */
    method HandleInput(pressed: seq<bool>, ui: Inventory.InventoryUI?)
      requires |pressed| == 4
      modifies this, ui
      ensures Model() == KeysHandled(old(Model()), pressed).0 && itemTags == old(itemTags)
      ensures ui != null ==> ui.shown == Inventory.Notify(old(ui.shown), ui.wired, KeysHandled(old(Model()), pressed).1)
    {
      for i := 0 to 4
        invariant Model() == KeysHandled(old(Model()), pressed[..i]).0 && itemTags == old(itemTags)
        invariant ui != null ==> ui.shown == Inventory.Notify(old(ui.shown), ui.wired, KeysHandled(old(Model()), pressed[..i]).1)
      {
        assert pressed[..i + 1][..i] == pressed[..i];
        if pressed[i] {
          ghost var before := KeysHandled(old(Model()), pressed[..i]);
          SwitchToSlot(i + 1, ui);
          if ui != null {
            Inventory.NotifyAppend(old(ui.shown), ui.wired, before.1, Switched(before.0, i + 1).1);
          }
        }
      }
      assert pressed[..4] == pressed;
    }

    /** Starts the mask routine on a click; returns whether one started and
        the state it will set. */
    method HandleMaskInput(clicked: bool) returns (started: bool, equip: bool)
      modifies this`isAnimatingMask
      ensures (Model(), started, equip) == MaskBegun(old(Model()), clicked)
    {
      if heldItem == null || isAnimatingMask {
        return false, false;
      }
      if !Contains(ToLower(heldItem.name), "mask") {
        return false, false;
      }
      if clicked {
        started, equip := true, !isMaskEquipped;
        isAnimatingMask := true;
      } else {
        started, equip := false, false;
      }
    }

    /** The part of `EquipMaskRoutine` after its 0.25-second wait. */
    method CompleteMaskRoutine(equip: bool)
      modifies this`isMaskEquipped, this`isAnimatingMask, this`currentMaskType
      ensures Model() == MaskCompleted(old(Model()), equip)
    {
      isMaskEquipped := equip;
      isAnimatingMask := false;
      if equip && heldItem != null {
        if heldItem.hasMaskItem {
          currentMaskType := heldItem.maskType;
        }
      } else if !equip {
        currentMaskType := None;
      }
    }
  }
}
