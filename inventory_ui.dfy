/** `UI.InventoryUI`: four inventory images that are shown or hidden by
    matching keywords in an item's name, and the static `Instance` that the
    player scripts call. */
module Inventory {
  import opened Text

  /** One flag per inventory image, in the order mask 1, mask 2, paper, knife.
      Used both for which images are active and for which image references are
      assigned in the scene (`wired`; a null `Image` field is not). */
  datatype Icons = Icons(mask1: bool, mask2: bool, paper: bool, knife: bool)

  /** The image a name selects, or none. */
  datatype Icon = Mask1Icon | Mask2Icon | PaperIcon | KnifeIcon | NoIcon

  /** One call `UpdateItemStatus(itemName, isHeld)` made by another script. */
  datatype Notice = ItemStatus(itemName: string, isHeld: bool)

  function Get(icons: Icons, which: Icon): bool
  {
    match which
    case Mask1Icon => icons.mask1
    case Mask2Icon => icons.mask2
    case PaperIcon => icons.paper
    case KnifeIcon => icons.knife
    case NoIcon => false
  }

  /** The keyword test of `UpdateItemStatus`, tried in order on the lower-cased
      name: "mask1", then "mask2", then "paper" or "document", then "knife",
      "weapon" or "balisong". */
  function IconFor(itemName: string): Icon
  {
    var lowerName := ToLower(itemName);
    if Contains(lowerName, "mask1") then Mask1Icon
    else if Contains(lowerName, "mask2") then Mask2Icon
    else if Contains(lowerName, "paper") || Contains(lowerName, "document") then PaperIcon
    else if Contains(lowerName, "knife") || Contains(lowerName, "weapon") || Contains(lowerName, "balisong") then KnifeIcon
    else NoIcon
  }

  /** `SetImageState`: set one image active, unless its reference is unassigned. */
  function SetImage(shown: Icons, wired: Icons, which: Icon, active: bool): (r: Icons)
    ensures Get(wired, which) ==> Get(r, which) == active
    ensures !Get(wired, which) ==> r == shown
    ensures forall w :: w != which ==> Get(r, w) == Get(shown, w)
  {
    if !Get(wired, which) then shown
    else
      match which
      case Mask1Icon => shown.(mask1 := active)
      case Mask2Icon => shown.(mask2 := active)
      case PaperIcon => shown.(paper := active)
      case KnifeIcon => shown.(knife := active)
      case NoIcon => shown
  }

  /** The images after `UpdateItemStatus(itemName, isHeld)`. At most the one
      image the name selects changes; it becomes `isHeld` if its reference is
      assigned; every other image keeps its state. */
  function StatusAfter(shown: Icons, wired: Icons, itemName: string, isHeld: bool): (r: Icons)
    ensures forall w :: w != IconFor(itemName) ==> Get(r, w) == Get(shown, w)
    ensures Get(wired, IconFor(itemName)) ==> Get(r, IconFor(itemName)) == isHeld
    ensures !Get(wired, IconFor(itemName)) ==> r == shown
    ensures IconFor(itemName) == NoIcon ==> r == shown
  {
    SetImage(shown, wired, IconFor(itemName), isHeld)
  }

  /** The images after a sequence of `UpdateItemStatus` calls, in order. */
  function Notify(shown: Icons, wired: Icons, notices: seq<Notice>): Icons
    decreases |notices|
  {
    if notices == [] then shown
    else Notify(StatusAfter(shown, wired, notices[0].itemName, notices[0].isHeld), wired, notices[1..])
  }

  /** Two batches of calls have the effect of the first followed by the second. */
  lemma {:induction false} NotifyAppend(shown: Icons, wired: Icons, first: seq<Notice>, second: seq<Notice>)
    ensures Notify(shown, wired, first + second) == Notify(Notify(shown, wired, first), wired, second)
    decreases |first|
  {
    if first == [] {
      assert first + second == second;
    } else {
      assert (first + second)[1..] == first[1..] + second;
      NotifyAppend(StatusAfter(shown, wired, first[0].itemName, first[0].isHeld), wired, first[1..], second);
    }
  }

  /** The images hidden by `Awake` on the first instance. */
  function AllHidden(shown: Icons, wired: Icons): (r: Icons)
    ensures forall w :: Get(wired, w) ==> !Get(r, w)
    ensures forall w :: !Get(wired, w) ==> Get(r, w) == Get(shown, w)
  {
    var s1 := SetImage(shown, wired, Mask1Icon, false);
    var s2 := SetImage(s1, wired, Mask2Icon, false);
    var s3 := SetImage(s2, wired, PaperIcon, false);
    SetImage(s3, wired, KnifeIcon, false)
  }

  /** Matching ignores case: a name and its lower-cased form select the same image. */
  lemma StatusIgnoresCase(shown: Icons, wired: Icons, itemName: string, isHeld: bool)
    ensures StatusAfter(shown, wired, ToLower(itemName), isHeld) == StatusAfter(shown, wired, itemName, isHeld)
  {
    ToLowerIdempotent(itemName);
  }

  /** A bare "Mask" matches no keyword, so it changes no image. */
  lemma PlainMaskChangesNothing(shown: Icons, wired: Icons, isHeld: bool)
    ensures StatusAfter(shown, wired, "Mask", isHeld) == shown
  {
    assert ToLower("Mask") == "mask";
  }

  /** "mask1" wins over the later keywords: a name with both "Mask1" and
      "Paper" sets the mask 1 image and leaves the paper image alone. */
  lemma Mask1TakesPriority(shown: Icons, wired: Icons, isHeld: bool)
    requires wired.mask1
    ensures StatusAfter(shown, wired, "Mask1Paper", isHeld) == shown.(mask1 := isHeld)
  {
    assert ToLower("Mask1Paper") == "mask1paper";
    assert OccursAt("mask1paper", "mask1", 0);
  }

  /** `InventoryUI.Instance`, the static reference to the first instance. */
  class UiInstance {
    var current: InventoryUI?

    constructor ()
      ensures current == null
    {
      current := null;
    }
  }

  class InventoryUI {
    /** Which of `mask1Image`, `mask2Image`, `paperImage`, `knifeImage` are assigned. */
    const wired: Icons
    /** Which of those images are active. */
    var shown: Icons

    constructor (wired: Icons, shown: Icons)
      ensures this.wired == wired && this.shown == shown
    {
      this.wired := wired;
      this.shown := shown;
    }

    /** The first instance registers itself and hides every assigned image; a
        later instance is destroyed and touches nothing. */
    method Awake(instance: UiInstance) returns (destroyed: bool)
      modifies this, instance
      ensures destroyed == (old(instance.current) != null)
      ensures !destroyed ==> instance.current == this && shown == AllHidden(old(shown), wired)
      ensures destroyed ==> instance.current == old(instance.current) && shown == old(shown)
    {
      if instance.current == null {
        instance.current := this;
      } else {
        destroyed := true;
        return;
      }
      destroyed := false;
      SetImageState(Mask1Icon, false);
      SetImageState(Mask2Icon, false);
      SetImageState(PaperIcon, false);
      SetImageState(KnifeIcon, false);
    }

    method UpdateItemStatus(itemName: string, isHeld: bool)
      modifies this
      ensures shown == StatusAfter(old(shown), wired, itemName, isHeld)
    {
      var lowerName := ToLower(itemName);
      if Contains(lowerName, "mask1") {
        SetImageState(Mask1Icon, isHeld);
      } else if Contains(lowerName, "mask2") {
        SetImageState(Mask2Icon, isHeld);
      } else if Contains(lowerName, "paper") || Contains(lowerName, "document") {
        SetImageState(PaperIcon, isHeld);
      } else if Contains(lowerName, "knife") || Contains(lowerName, "weapon") || Contains(lowerName, "balisong") {
        SetImageState(KnifeIcon, isHeld);
      }
    }

    method SetImageState(which: Icon, active: bool)
      modifies this
      ensures shown == SetImage(old(shown), wired, which, active)
    {
      if Get(wired, which) {
        match which
        case Mask1Icon => shown := shown.(mask1 := active);
        case Mask2Icon => shown := shown.(mask2 := active);
        case PaperIcon => shown := shown.(paper := active);
        case KnifeIcon => shown := shown.(knife := active);
        case NoIcon =>
      }
    }
  }
}
