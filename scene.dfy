/** What the engine gives the game logic: game objects with a name and a tag,
    and the reduced results of its physics queries. */
module Scene {

  /** `Items.Masks.MaskType`, the kind a mask item grants when worn. */
  datatype MaskType = None | Police | Nurse | Zombie | Government

  /** A Unity `GameObject` as the core sees it: its name, its tag, and whether it
      carries a `MaskItem` component (and of which type). Identity is the object
      reference, as for `Transform` comparisons in the source. */
  class GameObject {
    const name: string
    const tag: string
    const hasMaskItem: bool
    const maskType: MaskType

    constructor (name: string, tag: string, hasMaskItem: bool, maskType: MaskType)
      ensures this.name == name && this.tag == tag
      ensures this.hasMaskItem == hasMaskItem && this.maskType == maskType
    {
      this.name := name;
      this.tag := tag;
      this.hasMaskItem := hasMaskItem;
      this.maskType := maskType;
    }
  }

  /** The tag `CompareTag("Player")` tests for. */
  const PlayerTag: string := "Player"

  /** The outcome of a `Physics.Raycast`: nothing hit, or the tag of the first hit. */
  datatype RayHit = Miss | Hit(tag: string)

  /** One `Collider` returned by `Physics.OverlapSphere`: the object, its distance
      from the reference point, and the dot product of the viewer's forward
      vector with the normalised direction to it. */
  datatype Candidate = Candidate(obj: GameObject, distance: real, dot: real)

  /** A movement request for one frame: how far to step toward the player
      (0 when not moving) and whether to turn to face the player (`LookAt`). */
  datatype Steer = Steer(step: real, face: bool)
}
