# Survival-horror NPC and inventory rules, in Dafny

This project models the game logic of a small Unity survival-horror game:

- the player's inventory slots and held item (`PlayerPickup`);
- the mask-equip routine (`MaskEquipController`);
- the inventory icons (`InventoryUI`);
- player and NPC health (`PlayerHealth`, `NPCHealth`);
- the two NPC senses (`NPCDetect`, `ZombieNPCDetect`);
- the zombie's grab minigame (`ZombieActions`);
- the police checkpoint queue (`PoliceNPC`);
- the government official;
- the two healthcare NPCs;
- the enemy registry (`EnemyPresence`).

Each C# component becomes a Dafny `class` with the component's fields. Every method that changes fields is proved against a pure step function of a snapshot datatype (`Model()`): `ensures Model() == Step(old(Model()), inputs)`. The properties the game relies on are stated on those step functions, as their `ensures` clauses and as lemmas relating several steps.

Engine services become inputs or outputs:

- `Physics.OverlapSphere` is a list of `Candidate(object, distance, dot)` values.
- `Physics.Raycast` is a `RayHit` (`Miss` or `Hit(tag)`).
- `Time.deltaTime` is a real `dt`.
- `Mathf.Cos(fieldOfView)` is a `threshold` parameter.
- Distances the engine measures are real parameters.
- `GameObject.FindGameObjectWithTag` and `GetComponentInParent` results are parameters.
- NavMesh orders, `LookAt` steps and `SetActive` calls are returned as request values (`Orders`, `Steer`, `Visibility`).
- Calls to `InventoryUI.Instance.UpdateItemStatus` are a sequence of `Notice` values. The classes also apply them to the UI object.

Number types:

- C# `int` fields (health, the document counter) are 32-bit values with explicit wrap-around (`Int32.Wrap`).
- C# `float` fields are exact reals.
- A Unity `Slider` keeps its value in [0, 1] (`ZombieGrab.SliderClamp`).

Coroutines are split into a start step (up to the `yield`) and a completion step.

Where the code and the design description disagree, the model follows the code:

- The zombie has no patrol, chase or cooldown states. Its grab starts when the agent reports arrival and ends in a win or a loss with no cooldown.
- The grab's loss test `slider.value <= 1` is always true for a bounded slider, so loss depends on time alone (`ZombieGrab.Attacked`).
- The police officer has no credential check and no cleared state. The queue drains on a timer, and the officer then walks to the player.
- The queue removes an entry when the timer reaches `lineTime` (`>=`), one entry per frame at most.
- Item routing is by substring of the lower-cased object name, not by a typed category.

## Model

| member | source | states |
|---|---|---|
| Int32.Wrap | Assets/Scripts/Player/PlayerHealth.cs:21-35 | the stored value of a C# `int` operation is congruent to the exact result modulo 2^32 and equal to it when in range |
| Int32.WrapAddSub | Assets/Scripts/Player/PlayerHealth.cs:39-62 | adding then subtracting the same `int` with wrap-around returns the original value |
| Text.ToLower | Assets/Scripts/UI/InventoryUI.cs:42 | `ToLower` keeps the length and lower-cases each character |
| Text.Contains | Assets/Scripts/UI/InventoryUI.cs:44-56 | `Contains(s, sub)` holds exactly when `sub` occurs in `s` at some position |
| Inventory.SetImage | Assets/Scripts/UI/InventoryUI.cs:62-68 | an assigned image takes the new active state, an unassigned one is skipped, and no other image changes |
| Inventory.StatusAfter | Assets/Scripts/UI/InventoryUI.cs:36-60 | at most the image selected by the name changes; it becomes `isHeld` if assigned; a name with no keyword changes nothing |
| Inventory.NotifyAppend | Assets/Scripts/UI/InventoryUI.cs:36-60 | two batches of `UpdateItemStatus` calls have the effect of the first batch followed by the second |
| Inventory.AllHidden | Assets/Scripts/UI/InventoryUI.cs:30-33 | every assigned image is hidden and unassigned ones keep their state |
| Inventory.StatusIgnoresCase | Assets/Scripts/UI/InventoryUI.cs:42 | a name and its lower-cased form select the same image |
| Inventory.PlainMaskChangesNothing | Assets/Scripts/UI/InventoryUI.cs:44-59 | "Mask" without 1 or 2 matches no keyword and changes no image |
| Inventory.Mask1TakesPriority | Assets/Scripts/UI/InventoryUI.cs:44-55 | "mask1" is checked before "paper", so a name with both sets only the mask 1 image |
| Inventory.InventoryUI.Awake | Assets/Scripts/UI/InventoryUI.cs:16-34 | the first instance registers itself and hides every assigned image; a later one is destroyed and changes nothing |
| Inventory.InventoryUI.UpdateItemStatus | Assets/Scripts/UI/InventoryUI.cs:36-60 | the images become `StatusAfter` of the old images |
| Inventory.InventoryUI.SetImageState | Assets/Scripts/UI/InventoryUI.cs:62-68 | the images become `SetImage` of the old images |
| Registry.IndexOf | Assets/Scripts/Enemy/EnemyPresence.cs:23 | the index of the first occurrence, or -1 exactly when the element is absent |
| Registry.RemoveFirst | Assets/Scripts/Enemy/EnemyPresence.cs:23 | `List.Remove` drops the first occurrence and keeps the rest in order; an absent element leaves the list unchanged; the multiset loses one copy |
| Registry.EnableThenDisable | Assets/Scripts/Enemy/EnemyPresence.cs:16-24 | enabling then disabling an instance not yet registered restores the registry exactly |
| Registry.EnemyRegistry.constructor | Assets/Scripts/Enemy/EnemyPresence.cs:14 | the registry starts empty |
| Registry.EnemyPresence.OnEnable | Assets/Scripts/Enemy/EnemyPresence.cs:16-19 | the instance is appended at the end of the registry |
| Registry.EnemyPresence.OnDisable | Assets/Scripts/Enemy/EnemyPresence.cs:21-24 | the registry becomes `RemoveFirst` of the old registry |
| PlayerVitals.Started | Assets/Scripts/Player/PlayerHealth.cs:16-19 | current health becomes the maximum, nothing else changes |
| PlayerVitals.Damaged | Assets/Scripts/Player/PlayerHealth.cs:21-35 | ignored once dead; otherwise health drops by the damage (wrapped), and death happens exactly when health is then ≤ 0 |
| PlayerVitals.Died | Assets/Scripts/Player/PlayerHealth.cs:64-80 | the player is dead afterwards and the body runs only if not already dead |
| PlayerVitals.Granted | Assets/Scripts/Player/PlayerHealth.cs:39-47 | without a nurse, sets it and adds the amount to maximum and current health; with one, nothing changes |
| PlayerVitals.Revoked | Assets/Scripts/Player/PlayerHealth.cs:49-62 | with a nurse, clears it and lowers the maximum; current health above the new maximum becomes exactly the maximum, except that a living player is kept at 1; health within the maximum is kept (raised to 1 for a living player below 1); without a nurse nothing changes |
| PlayerVitals.Healed | Assets/Scripts/Player/PlayerHealth.cs:87-93 | ignored when dead; otherwise health becomes the smaller of health + amount and the maximum |
| PlayerVitals.GrantThenRevoke | Assets/Scripts/Player/PlayerHealth.cs:39-62 | a grant followed by a revoke of the same amount restores the maximum and removes the nurse |
| PlayerVitals.SecondGrantIsNoOp | Assets/Scripts/Player/PlayerHealth.cs:41 | a second grant changes nothing |
| PlayerVitals.DeadStaysDead | Assets/Scripts/Player/PlayerHealth.cs:23 | any sequence of hits leaves a dead player's state unchanged |
| PlayerVitals.PlayerHealth.Start | Assets/Scripts/Player/PlayerHealth.cs:16-19 | the state becomes `Started` of the old state |
| PlayerVitals.PlayerHealth.TakeDamage | Assets/Scripts/Player/PlayerHealth.cs:21-37 | the state and the death report are `Damaged` of the old state |
| PlayerVitals.PlayerHealth.GrantBonusHealth | Assets/Scripts/Player/PlayerHealth.cs:39-47 | the state becomes `Granted` of the old state |
| PlayerVitals.PlayerHealth.RevokeBonusHealth | Assets/Scripts/Player/PlayerHealth.cs:49-62 | the state becomes `Revoked` of the old state |
| PlayerVitals.PlayerHealth.Die | Assets/Scripts/Player/PlayerHealth.cs:64-80 | the state and whether the body ran are `Died` of the old state |
| PlayerVitals.PlayerHealth.Heal | Assets/Scripts/Player/PlayerHealth.cs:87-93 | the state becomes `Healed` of the old state |
| NpcVitals.Started | Assets/Scripts/NPC/NPCHealth.cs:16-19 | current health becomes the configured maximum |
| NpcVitals.Died | Assets/Scripts/NPC/NPCHealth.cs:46-86 | the body runs only once; with `handleDeathLogic` and a healthcare component death is delegated; otherwise the generic fallback runs with the animator flag and destroy delay |
| NpcVitals.Damaged | Assets/Scripts/NPC/NPCHealth.cs:21-86 | ignored exactly when dead; otherwise health drops by the damage; a kill happens exactly at health ≤ 0 and is routed as `Die` routes it: delegated exactly with `handleDeathLogic` and a healthcare component, otherwise the fallback with the animator flag and destroy delay; the hurt trigger fires only on a survived hit |
| NpcVitals.KilledAtMostOnce | Assets/Scripts/NPC/NPCHealth.cs:23-35 | in any sequence of hits, every hit after a killing one is ignored |
| NpcVitals.AllIgnoredOnceDead | Assets/Scripts/NPC/NPCHealth.cs:23 | every hit on a dead NPC is ignored |
| NpcVitals.NPCHealth.Start | Assets/Scripts/NPC/NPCHealth.cs:16-19 | the state becomes `Started` of the old state |
| NpcVitals.NPCHealth.TakeDamage | Assets/Scripts/NPC/NPCHealth.cs:21-44 | the state and the hit are `Damaged`; a fallback death disables every collider, any other outcome leaves them alone |
| NpcVitals.NPCHealth.Die | Assets/Scripts/NPC/NPCHealth.cs:46-86 | the state and the death are `Died`; the fallback disables every collider in its loop |
| Sight.FieldOfViewAfter | Assets/Scripts/NPCDetect_Sora/NPCDetect.cs:24-49 | the flag ends exactly "dot strictly above the threshold and distance within range", whatever it was before |
| Sight.RayAfter | Assets/Scripts/NPCDetect_Sora/NPCDetect.cs:51-68 | a Player hit sets the flag, any other hit clears it, a miss keeps it |
| Sight.Sensed | Assets/Scripts/NPCDetect_Sora/NPCDetect.cs:13-22 | no change without a player; otherwise both flags are recomputed and the NPC turns to the player exactly when both hold |
| Sight.OutOfRangeNeverInView | Assets/Scripts/NPCDetect_Sora/NPCDetect.cs:45-48 | a player beyond the range is never in view and never looked at |
| Sight.ThresholdIsExcluded | Assets/Scripts/NPCDetect_Sora/NPCDetect.cs:31 | a dot exactly at the threshold is outside the cone |
| Sight.NPCDetect.constructor | Assets/Scripts/NPCDetect_Sora/NPCDetect.cs:5-11 | defaults: field of view 45, range 5, both flags false |
| Sight.NPCDetect.Update | Assets/Scripts/NPCDetect_Sora/NPCDetect.cs:13-22 | the flags and the look-at are `Sensed` of the old flags |
| Sight.NPCDetect.CheckFieldOfView | Assets/Scripts/NPCDetect_Sora/NPCDetect.cs:24-49 | `inFOV` becomes `FieldOfViewAfter` |
| Sight.NPCDetect.CheckIfPlayerIsSeen | Assets/Scripts/NPCDetect_Sora/NPCDetect.cs:51-68 | `detectsPlayer` becomes `RayAfter` |
| ZombieSense.Nearest | Assets/Scripts/NPC/Zombie/ZombieNPCDetect.cs:36-47 | the chosen candidate is no farther than any other and strictly nearer than every earlier one; none exactly when the list is empty |
| ZombieSense.Perceived | Assets/Scripts/NPC/Zombie/ZombieNPCDetect.cs:17-31 | the target is the nearest candidate; `inFront` is dot > 0.5; the view and ray checks run only when in front, otherwise `inFOV` and `inRange` keep their values; the zombie turns exactly when all three hold |
| ZombieSense.FlagsKeptBehind | Assets/Scripts/NPC/Zombie/ZombieNPCDetect.cs:20-24 | flags set in an earlier frame survive a frame whose target is behind, and the zombie does not turn |
| ZombieSense.FirstWinsTie | Assets/Scripts/NPC/Zombie/ZombieNPCDetect.cs:40-46 | when two candidates tie at the minimum distance, the later one is never chosen |
| ZombieSense.ZombieNPCDetect.constructor | Assets/Scripts/NPC/Zombie/ZombieNPCDetect.cs:9-15 | defaults: field of view 45, range 5, no target, all flags false |
| ZombieSense.ZombieNPCDetect.Update | Assets/Scripts/NPC/Zombie/ZombieNPCDetect.cs:17-31 | the perception and the look-at are `Perceived` of the old perception |
| ZombieSense.ZombieNPCDetect.DetectAll | Assets/Scripts/NPC/Zombie/ZombieNPCDetect.cs:33-58 | the loop chooses `Nearest`; the target is null and `inFront` false without candidates |
| ZombieSense.ZombieNPCDetect.CheckIfTargetIsInFront | Assets/Scripts/NPC/Zombie/ZombieNPCDetect.cs:60-74 | `inFront` holds exactly when the dot exceeds 0.5 |
| ZombieSense.ZombieNPCDetect.CheckFieldOfView | Assets/Scripts/NPC/Zombie/ZombieNPCDetect.cs:76-101 | `inFOV` becomes `FieldOfViewAfter` |
| ZombieSense.ZombieNPCDetect.CheckIfInRange | Assets/Scripts/NPC/Zombie/ZombieNPCDetect.cs:103-120 | `inRange` becomes `RayAfter` |
| ZombieGrab.SliderClamp | Assets/Scripts/NPC/Zombie/ZombieAction.cs:69 | the slider's value always lies in [0, 1] and in-range values are stored unchanged |
| ZombieGrab.Ended | Assets/Scripts/NPC/Zombie/ZombieAction.cs:91-97 | progress 0, time left 5 (not the limit), destination not reached, canvas hidden |
| ZombieGrab.Attacked | Assets/Scripts/NPC/Zombie/ZombieAction.cs:62-89 | loss exactly when time is up; win exactly when time remains, a key is pressed and the decayed progress plus 0.1 reaches 1; either ends the session; a running tick keeps the time, and the progress is the decayed value, plus 0.1 (clamped) after a press |
| ZombieGrab.Ticked | Assets/Scripts/NPC/Zombie/ZombieAction.cs:28-60 | without a target only the time resets to the limit; a destination is requested exactly when there is a target not yet reached that is in front, in view and in range; with a target the agent is halted while arrived and released (`isStopped = false`) before arrival; after arrival a grab is lost exactly when time is up and won exactly when time remains, F is pressed and the decayed progress plus 0.1 reaches 1 (never before arrival); a resolved grab leaves time 5 - dt; a running grab loses dt of time and its progress is the clamped decay by 0.2·dt, plus 0.1 (clamped) after a press; the slider stays in [0, 1] |
| ZombieGrab.UnansweredGrabIsLost | Assets/Scripts/NPC/Zombie/ZombieAction.cs:41-76 | a grab with no key presses and at most n·dt time left is lost within n + 1 frames |
| ZombieGrab.PressNearFullEscapes | Assets/Scripts/NPC/Zombie/ZombieAction.cs:78-88 | a press that lifts decayed progress to 1 wins with the knock-back distance and ends the session |
| ZombieGrab.ZombieActions.constructor | Assets/Scripts/NPC/Zombie/ZombieAction.cs:9-12 | defaults: time limit and time left 5, knock-back 7, progress 0 |
| ZombieGrab.ZombieActions.Start | Assets/Scripts/NPC/Zombie/ZombieAction.cs:21-26 | the grab canvas starts hidden |
| ZombieGrab.ZombieActions.Update | Assets/Scripts/NPC/Zombie/ZombieAction.cs:28-52 | the state and the orders are `Ticked` of the old state and the detector's view; the slider stays in [0, 1] |
| ZombieGrab.ZombieActions.MoveToTarget | Assets/Scripts/NPC/Zombie/ZombieAction.cs:54-60 | a destination is requested exactly when the target is in front, in view and in range |
| ZombieGrab.ZombieActions.QTEAttack | Assets/Scripts/NPC/Zombie/ZombieAction.cs:62-89 | the state and the resolution are `Attacked` of the old state |
| ZombieGrab.ZombieActions.EndQTE | Assets/Scripts/NPC/Zombie/ZombieAction.cs:91-97 | the state becomes `Ended` of the old state |
| Police.TimerHandled | Assets/Scripts/PoilceNPC.cs:52-64 | an empty queue leaves queue and timer alone; otherwise the timer grows by dt, and once it reaches `lineTime` the front entry leaves and the timer restarts at 0; at most one entry leaves per frame |
| Police.Updated | Assets/Scripts/PoilceNPC.cs:24-50 | the officer chases exactly when the queue is empty after this frame's drain and a player is known or found, with its stopping distance |
| Police.DrainKeepsOrder | Assets/Scripts/PoilceNPC.cs:66-71 | any number of frames leaves a suffix of the queue in its original order |
| Police.OnePeriod | Assets/Scripts/PoilceNPC.cs:57-63 | from a fresh timer, nothing leaves before frame k and exactly the front entry leaves at frame k, where k frames of dt first reach `lineTime` |
| Police.DrainRate | Assets/Scripts/PoilceNPC.cs:52-71 | after m·k frames from a fresh timer the first m entries are gone and the timer is 0 |
| Police.ThreeInLine | Assets/Scripts/PoilceNPC.cs:24-33 | three waiting NPCs, 5 seconds each, one frame per second: the queue is empty after 15 frames |
| Police.PoliceNPC.constructor | Assets/Scripts/PoilceNPC.cs:7-17 | defaults: stop 1.5, spacing 2, speed 5, 60 seconds per entry, timer 0 |
| Police.PoliceNPC.Update | Assets/Scripts/PoilceNPC.cs:24-33 | the queue, timer, player and chase order are `Updated` of the old state; the returned slots, one per remaining entry, put the front entry at the start point and each later one `spacing` further back |
| Police.PoliceNPC.FollowPlayer | Assets/Scripts/PoilceNPC.cs:35-50 | a known player is kept, otherwise the found one is taken; no player means no order |
| Police.PoliceNPC.HandleTimer | Assets/Scripts/PoilceNPC.cs:52-64 | the queue and timer become `TimerHandled` of the old ones |
| Police.PoliceNPC.RemoveOneNPC | Assets/Scripts/PoilceNPC.cs:66-71 | returns the front entry; the rest keep their order, shifted down one |
| Police.PoliceNPC.UpdateNPCPositions | Assets/Scripts/PoilceNPC.cs:73-81 | one slot per entry; the front entry's slot is the start point and each later one is `spacing` further back |
| Official.Hurt | Assets/Scripts/GovernmentOfficial.cs:49-64 | a vulnerable official loses the full damage, an invulnerable one a tenth of it; `Die` is called exactly when health is then ≤ 0 |
| Official.ArmourIsTenfold | Assets/Scripts/GovernmentOfficial.cs:51-58 | an invulnerable official hit for ten times the damage ends where a vulnerable one hit once does |
| Official.DiesAgain | Assets/Scripts/GovernmentOfficial.cs:49-64 | with no dead guard, a further non-negative hit on a dead official calls `Die` again |
| Official.Tracked | Assets/Scripts/GovernmentOfficial.cs:23-47 | no action without a player; turns to the player exactly when it is in view and in line of sight; steps toward them only while farther than the stop distance |
| Official.FarPlayerIgnored | Assets/Scripts/GovernmentOfficial.cs:16-34 | with the detector's range of 25, a player beyond it is neither followed nor faced |
| Official.GovernmentOfficial.constructor | Assets/Scripts/GovernmentOfficial.cs:8-14 | defaults: speed 2, stop 5, health 100, invulnerable |
| Official.GovernmentOfficial.Start | Assets/Scripts/GovernmentOfficial.cs:16-21 | the detector gets field of view 175 and range 25, and its flags are untouched |
| Official.GovernmentOfficial.Update | Assets/Scripts/GovernmentOfficial.cs:23-34 | the steering is `Tracked` of the detector's state |
| Official.GovernmentOfficial.FollowPlayer | Assets/Scripts/GovernmentOfficial.cs:36-47 | always faces the player and steps only beyond the stop distance |
| Official.GovernmentOfficial.TakeDamage | Assets/Scripts/GovernmentOfficial.cs:49-64 | health and the death report are `Hurt` of the old health |
| HealthcareZone.Home | Assets/Scripts/Healthcare/HealthcarePersonnel.cs:25-36 | home is the target area's position if assigned, else the NPC's own |
| HealthcareZone.FirstPlayer | Assets/Scripts/Healthcare/HealthcarePersonnel.cs:59-67 | the index of the first Player-tagged overlap, with no Player-tagged overlap before it |
| HealthcareZone.Detected | Assets/Scripts/Healthcare/HealthcarePersonnel.cs:50-75 | a Player-tagged overlap becomes the remembered player and starts following; with none nothing changes |
| HealthcareZone.Followed | Assets/Scripts/Healthcare/HealthcarePersonnel.cs:77-103 | a player outside the zone is forgotten, following stops and there is no movement; inside, the NPC moves and faces the player only beyond the stop distance |
| HealthcareZone.LatchHoldsInZone | Assets/Scripts/Healthcare/HealthcarePersonnel.cs:38-75 | leaving the trigger does not end following while the player is in the zone |
| HealthcareZone.ZoneExitStops | Assets/Scripts/Healthcare/HealthcarePersonnel.cs:44-89 | a frame with the player outside the zone ends following at once, whatever the trigger saw |
| HealthcareZone.IdleUntilTriggered | Assets/Scripts/Healthcare/HealthcarePersonnel.cs:38-75 | an idle NPC stays idle and still until a player enters the trigger |
| HealthcareZone.HealthcarePersonnel.constructor | Assets/Scripts/Healthcare/HealthcarePersonnel.cs:6-23 | defaults: trigger radius 1, zone 10, stop 1.5, speed 4, idle |
| HealthcareZone.HealthcarePersonnel.Start | Assets/Scripts/Healthcare/HealthcarePersonnel.cs:25-36 | the home becomes `Home` |
| HealthcareZone.HealthcarePersonnel.Update | Assets/Scripts/Healthcare/HealthcarePersonnel.cs:38-48 | the follow state and steering are `Updated` of the old state |
| HealthcareZone.HealthcarePersonnel.DetectPlayer | Assets/Scripts/Healthcare/HealthcarePersonnel.cs:50-75 | the loop stops at the first Player-tagged overlap; the state becomes `Detected` |
| HealthcareZone.HealthcarePersonnel.FollowBehavior | Assets/Scripts/Healthcare/HealthcarePersonnel.cs:77-103 | the state and steering become `Followed` |
| HealthcareCompanion.Approach | Assets/Scripts/HealthcarePersonnel.cs:43-54 | moves and turns only while farther than the stop distance |
| HealthcareCompanion.Followed | Assets/Scripts/HealthcarePersonnel.cs:24-71 | no change without a player; seeing the player raises the flag and approaches, and arriving within 2 of the target area lowers it again; not seeing the player ends with the flag down and no movement |
| HealthcareCompanion.FollowingNeedsSight | Assets/Scripts/HealthcarePersonnel.cs:28-40 | following after a frame implies the player was seen that frame |
| HealthcareCompanion.FarPlayerEndsFollowing | Assets/Scripts/HealthcarePersonnel.cs:17-40 | with the detector's range of 12, a player beyond it ends following and movement |
| HealthcareCompanion.HealthcarePersonnel.constructor | Assets/Scripts/HealthcarePersonnel.cs:8-15 | defaults: follow 3, stop 1.5, speed 4, not following |
| HealthcareCompanion.HealthcarePersonnel.Start | Assets/Scripts/HealthcarePersonnel.cs:17-22 | the detector gets field of view 60 and range 12, and its flags are untouched |
| HealthcareCompanion.HealthcarePersonnel.Update | Assets/Scripts/HealthcarePersonnel.cs:24-41 | the flag and steering become `Followed` of the old flag and the detector's state |
| HealthcareCompanion.HealthcarePersonnel.FollowPlayer | Assets/Scripts/HealthcarePersonnel.cs:43-54 | the steering is `Approach` |
| HealthcareCompanion.HealthcarePersonnel.UpdateAreaStatus | Assets/Scripts/HealthcarePersonnel.cs:56-71 | an assigned target area within 2 clears the flag; otherwise it is kept |
| MaskEquip.Reset | Assets/Scripts/Player/MaskEquipController.cs:41-45 | both flags are cleared and running routines go on |
| MaskEquip.Begun | Assets/Scripts/Player/MaskEquipController.cs:47-97 | with no pickup, no held item, an animation under way, a name without "mask" or no request, nothing happens; otherwise a routine toward the opposite state starts, animating is raised at once, and the mask is shown first when it comes off |
| MaskEquip.Completed | Assets/Scripts/Player/MaskEquipController.cs:113-122 | the oldest routine sets the equipped flag to its requested value, clears animating, and hides an equipped mask |
| MaskEquip.BeginKeepsOneInFlight | Assets/Scripts/Player/MaskEquipController.cs:51 | the animating guard keeps at most one routine running |
| MaskEquip.CompleteKeepsOneInFlight | Assets/Scripts/Player/MaskEquipController.cs:113-116 | completion keeps at most one routine running, with animating raised exactly while one runs |
| MaskEquip.ResetAllowsTwoInFlight | Assets/Scripts/Player/MaskEquipController.cs:41-60 | a reset during a routine lets a second one start beside it |
| MaskEquip.EquipThenUnequip | Assets/Scripts/Player/MaskEquipController.cs:84-122 | an equip and an unequip, each completed, return to the unequipped state; the mask is hidden after the equip and shown for the unequip |
| MaskEquip.MaskEquipController.constructor | Assets/Scripts/Player/MaskEquipController.cs:9-19 | default animation 2 seconds, idle |
| MaskEquip.MaskEquipController.Start | Assets/Scripts/Player/MaskEquipController.cs:21-26 | an unset pickup reference is filled from the parent |
| MaskEquip.MaskEquipController.ResetState | Assets/Scripts/Player/MaskEquipController.cs:41-45 | the state becomes `Reset` |
| MaskEquip.MaskEquipController.ToggleMask | Assets/Scripts/Player/MaskEquipController.cs:47-61 | the state and visibility become `Begun` with the request set |
| MaskEquip.MaskEquipController.HandleMaskInput | Assets/Scripts/Player/MaskEquipController.cs:63-82 | the state and visibility become `Begun` with the click as the request |
| MaskEquip.MaskEquipController.EquipMaskRoutine | Assets/Scripts/Player/MaskEquipController.cs:84-113 | raises animating, queues the routine, and shows the mask when unequipping |
| MaskEquip.MaskEquipController.ResumeRoutine | Assets/Scripts/Player/MaskEquipController.cs:113-124 | the state and visibility become `Completed` |
| Pickup.GetItemInSlot | Assets/Scripts/Player/PlayerPickup.cs:368-378 | keys 1 to 4 read weapon, document, mask 1, mask 2; any other key reads null |
| Pickup.WithItemInSlot | Assets/Scripts/Player/PlayerPickup.cs:380-389 | a write to key 1 to 4 is read back by that key and no other; any other key writes nothing |
| Pickup.Released | Assets/Scripts/Player/PlayerPickup.cs:448-508 | nothing without a held item; otherwise every slot holding it is emptied, nothing is held, and the UI hears it is no longer held |
| Pickup.Switched | Assets/Scripts/Player/PlayerPickup.cs:258-286 | the mask flags and type are always reset, the held item becomes the slot's content (possibly none), and slots do not change |
| Pickup.Stored | Assets/Scripts/Player/PlayerPickup.cs:216-246 | the new item is held and in the slot; other slots are unchanged except that a dropped held item leaves them; the mask state is reset |
| Pickup.PlanFor | Assets/Scripts/Player/PlayerPickup.cs:164-210 | paper but not document is consumed; document goes to slot 2; mask goes to the free mask slot or slot 3; everything else goes to slot 1 |
| Pickup.MaskTakesFreeSlot | Assets/Scripts/Player/PlayerPickup.cs:189-200 | a mask never evicts another while a mask slot is free |
| Pickup.NearestTagged | Assets/Scripts/Player/PlayerPickup.cs:145-160 | the chosen candidate has an item tag, is strictly below `float.MaxValue`, is no farther than any tagged candidate and strictly nearer than every earlier one |
| Pickup.Collected | Assets/Scripts/Player/PlayerPickup.cs:162-210 | a consumed paper is reported held to the UI and changes nothing else; any other item sets `isWeapon` from its name and is stored as `Stored` stores it in the routed slot (held, other slots kept apart from a dropped held item, mask state reset, a drop notice before the held notice); a document is found exactly when the name contains "document" |
| Pickup.PickedUp | Assets/Scripts/Player/PlayerPickup.cs:139-214 | something is collected exactly when a tagged candidate exists, and then it is the nearest |
| Pickup.Interacted | Assets/Scripts/Player/PlayerPickup.cs:113-136 | a pickup takes precedence; otherwise the held item is dropped only with no mask equipped or animating |
| Pickup.MaskBegun | Assets/Scripts/Player/PlayerPickup.cs:295-314 | a click with a held "mask" and no animation starts a routine toward the opposite state and raises animating; otherwise nothing changes |
| Pickup.MaskCompleted | Assets/Scripts/Player/PlayerPickup.cs:343-364 | the equipped flag takes the requested value and animating ends; an equip takes the held mask's type, an unequip clears it |
| Pickup.EquipThenUnequip | Assets/Scripts/Player/PlayerPickup.cs:343-364 | a completed equip then unequip leaves no mask on and no mask type |
| Pickup.HighestKeyWins | Assets/Scripts/Player/PlayerPickup.cs:63-76 | the highest key pressed in a frame decides what is held, and the slots do not change |
| Pickup.SlotsUnchanged | Assets/Scripts/Player/PlayerPickup.cs:63-76 | any combination of number keys leaves all four slots as they were |
| Pickup.PlayerDeath.constructor | Assets/Scripts/Player/PlayerDeath.cs:6 | the document counter starts at 0 |
| Pickup.InteractKeepsHeldInSlot | Assets/Scripts/Player/PlayerPickup.cs:113-286 | the held item, if any, stays in one of the slots across an interaction |
| Pickup.StoreKeepsSlotsDistinct | Assets/Scripts/Player/PlayerPickup.cs:216-246 | storing an item not already slotted keeps every object in at most one slot |
| Pickup.DropEmptiesOneSlot | Assets/Scripts/Player/PlayerPickup.cs:495-499 | with distinct slots a drop empties exactly the held item's slot |
| Pickup.ConsumeKeepsPocket | Assets/Scripts/Player/PlayerPickup.cs:167-176 | consuming a paper changes no slot, held item or flag and finds no document |
| Pickup.PlayerDeath.DocumentFound | Assets/Scripts/Player/PlayerDeath.cs:20-23 | the document counter goes up by one with `int` wrap-around |
| Pickup.PlayerPickup.constructor | Assets/Scripts/Player/PlayerPickup.cs:18-37 | empty slots, nothing held, tags "Item", "Document", "Mask" |
| Pickup.PlayerPickup.OnInteract | Assets/Scripts/Player/PlayerPickup.cs:113-136 | the state, the UI images and the document counter follow `Interacted` |
| Pickup.PlayerPickup.TryPickupItem | Assets/Scripts/Player/PlayerPickup.cs:139-214 | the selection loop finds `NearestTagged`; the state, UI and counter follow `PickedUp` |
| Pickup.PlayerPickup.Collect | Assets/Scripts/Player/PlayerPickup.cs:162-211 | the state, UI and counter follow `Collected` |
| Pickup.PlayerPickup.PickupToSlot | Assets/Scripts/Player/PlayerPickup.cs:216-256 | the state and UI follow `Stored` |
| Pickup.PlayerPickup.SwitchToSlot | Assets/Scripts/Player/PlayerPickup.cs:258-286 | the state and UI follow `Switched` |
| Pickup.PlayerPickup.InitializeHeldItem | Assets/Scripts/Player/PlayerPickup.cs:409-413 | the UI hears the item is held |
| Pickup.PlayerPickup.ItemInSlot | Assets/Scripts/Player/PlayerPickup.cs:368-378 | returns `GetItemInSlot` of the current slots |
| Pickup.PlayerPickup.SetItemInSlot | Assets/Scripts/Player/PlayerPickup.cs:380-389 | the slots become `WithItemInSlot` |
| Pickup.PlayerPickup.DropItem | Assets/Scripts/Player/PlayerPickup.cs:472-508 | the state and UI follow `Released` |
| Pickup.PlayerPickup.ConsumeHeldItem | Assets/Scripts/Player/PlayerPickup.cs:448-470 | the state and UI follow `Released` |
| Pickup.PlayerPickup.HandleInput | Assets/Scripts/Player/PlayerPickup.cs:63-76 | the keys are handled in order 1 to 4; the state and UI follow `KeysHandled` |
| Pickup.PlayerPickup.HandleMaskInput | Assets/Scripts/Player/PlayerPickup.cs:295-314 | the state and the started routine follow `MaskBegun` |
| Pickup.PlayerPickup.CompleteMaskRoutine | Assets/Scripts/Player/PlayerPickup.cs:343-364 | the state follows `MaskCompleted` |

## Left out

- Floating point: `float` values are exact reals, so rounding, `0.1f` and `0.2f` not being exact, and overflow to infinity are not modelled.
- Vector geometry: positions, directions, `Vector3.Distance`, `normalized`, `TransformPoint`, `LookAt` rotations and `Mathf.Cos` are not modelled. Distances, dot products and thresholds are inputs, and a move is a step length with a "face the player" flag.
- HealthcareCompanion.HealthcarePersonnel.Update: the distance to the target area after the step is an input, because the step's effect on position is not modelled.
- Police.PoliceNPC.UpdateNPCPositions: only the offset along the start point's forward axis is computed. The `Vector3.Lerp` smoothing toward it is not modelled.
- Engine services: NavMesh path-finding, physics, rigidbodies, colliders (except the `NPCHealth` collider flags), animators, audio (`AudioManager` calls), `Debug.Log`, gizmos and the held-item rotation and offset (`UpdateHeldItemRotation`) are not modelled.
- Object lifetime: `Destroy` and its end-of-frame timing, scene reloads and `SetParent` are not modelled. `DropItem` and `ConsumeHeldItem` differ only in unparenting versus destroying, so they share one step function.
- Visibility: `SetActive` on held items in `PlayerPickup` (hiding the old item on a switch, showing an ejected one) is not modelled. `MaskEquipController`'s show and hide of the mask is returned as a `Visibility` request.
- Coroutine timing: the 2-second and 0.25-second waits are not modelled. A routine's completion is a separate step, and `MaskEquipController` completes its routines in start order.
- Pickup.MaskBegun: the routine's later completion is a separate call with the requested state. The model does not track whether two `PlayerPickup` routines overlap.
- `ToLower` lower-cases only the ASCII letters A to Z. Culture-specific case mapping in .NET is not modelled.
- Input devices: key and mouse presses (`Keyboard.current`, `Mouse.current`, `Input.GetKeyDown`) are boolean inputs.
- `HealthcareZone.HealthcarePersonnel.Die`, `HealthcareCompanion.HealthcarePersonnel.Die` and `GovernmentOfficial.Die` only log and destroy the object, so they are not modelled beyond the "died" results.
- `PlayerDeath` is modelled only as the document counter; its death counter and scene loading are not part of this model.
- Pickup.PlayerPickup: the eject of a non-held previous slot occupant only re-enables physics and visibility, so it has no state effect in the model.
