/** `ZombieActions`: a zombie walks to its target and, once there, holds it in
    a timed struggle ("QTE") that the player escapes by pressing F often enough
    before the time runs out. */
module ZombieGrab {
  import opened Scene
  import ZombieSense

  /** The fields `destinationReached` and `QTETimeLeft`, the struggle slider's
      value and whether the struggle canvas is shown. */
  datatype Grab = Grab(destinationReached: bool, timeLeft: real, progress: real, canvasShown: bool)

  /** Unity's `Slider` clamps its value to [minValue, maxValue] = [0, 1]. */
  function SliderClamp(x: real): (r: real)
    ensures 0.0 <= r <= 1.0
    ensures 0.0 <= x <= 1.0 ==> r == x
  {
    if x < 0.0 then 0.0 else if x > 1.0 then 1.0 else x
  }

  ghost predicate SliderBounded(g: Grab)
  {
    0.0 <= g.progress <= 1.0
  }

  /** Progress lost per second of struggle. */
  const DecayRate: real := 0.2
  /** Progress gained per F press. */
  const PressGain: real := 0.1
  /** The time `EndQTE` restores: the literal 5, not `QTETimeLimit`. */
  const EndQTETime: real := 5.0

  /** How a struggle frame ended: still going, escaped (the zombie is pushed
      back by `knockBack` and its path cleared), or lost (the target is
      destroyed). */
  datatype Resolution = Running | Won(knockBack: real) | Lost

  /** What a frame did to the `NavMeshAgent`'s `isStopped` flag. */
  datatype StopOrder = Untouched | Go | Halt

  /** What one `Update` asked of the navigation agent and the scene. */
  datatype Orders = Orders(stop: StopOrder, setDestination: bool, resolution: Resolution)

  /** `EndQTE`: canvas hidden, slider 0, time 5, destination no longer reached. */
  function Ended(g: Grab): (r: Grab)
    ensures r.progress == 0.0 && r.timeLeft == EndQTETime
    ensures !r.destinationReached && !r.canvasShown
  {
    Grab(false, EndQTETime, 0.0, false)
  }

  /** `QTEAttack`: the slider first decays by 0.2 per second; if time is up the
      target is lost (the slider test `<= 1` always holds on a clamped slider),
      and only otherwise does an F press add 0.1, escaping at a full slider. */
  function Attacked(g: Grab, targetIsPlayer: bool, dt: real, pressed: bool, blowBackDist: real): (r: (Grab, Resolution))
    ensures r.1 == Lost <==> g.timeLeft <= 0.0
    ensures r.1.Won? <==> g.timeLeft > 0.0 && pressed && SliderClamp(SliderClamp(g.progress - DecayRate * dt) + PressGain) >= 1.0
    ensures r.1.Won? ==> r.1.knockBack == blowBackDist
    ensures r.1 != Running ==> r.0 == Ended(g)
    ensures r.1 == Running ==> r.0.timeLeft == g.timeLeft && r.0.destinationReached == g.destinationReached
    ensures r.1 == Running && !pressed ==> r.0.progress == SliderClamp(g.progress - DecayRate * dt)
    ensures r.1 == Running && pressed ==> r.0.progress == SliderClamp(SliderClamp(g.progress - DecayRate * dt) + PressGain)
    ensures r.1 == Running ==> (r.0.canvasShown <==> g.canvasShown || targetIsPlayer)
    ensures SliderBounded(r.0)
  {
    var shown := g.(canvasShown := g.canvasShown || targetIsPlayer);
    var decayed := shown.(progress := SliderClamp(shown.progress - DecayRate * dt));
    if decayed.progress <= 1.0 && decayed.timeLeft <= 0.0 then (Ended(decayed), Lost)
    else if pressed then
      var raised := decayed.(progress := SliderClamp(decayed.progress + PressGain));
      if raised.progress >= 1.0 then (Ended(raised), Won(blowBackDist))
      else (raised, Running)
    else (decayed, Running)
  }

  /** The detector's view of the target, as `ZombieActions` reads it. */
  datatype View = View(hasTarget: bool, targetIsPlayer: bool, inFront: bool, inFOV: bool, inRange: bool)

  /** The constants of one frame: the view, `Time.deltaTime`, whether F went
      down this frame, and whether the agent reports arrival (`hasPath`, no path
      pending, remaining distance within the stopping distance). */
  datatype Frame = Frame(view: View, dt: real, pressed: bool, arrived: bool)

  /** One `Update`. Without a target only `QTETimeLeft` is reset to
      `QTETimeLimit`. Before arrival the agent moves, asking for a destination
      only when the target is ahead, in view and in reach. After arrival it
      stops, runs the struggle, and then takes `dt` off the time, even from the
      5 that a just-finished struggle restored. */
  function Ticked(g: Grab, limit: real, blowBackDist: real, f: Frame): (r: (Grab, Orders))
    ensures !f.view.hasTarget ==> r == (g.(timeLeft := limit), Orders(Untouched, false, Running))
    ensures r.1.setDestination <==> f.view.hasTarget && !g.destinationReached && f.view.inFront && f.view.inFOV && f.view.inRange
    ensures f.view.hasTarget ==> r.1.stop == (if g.destinationReached then Halt else Go)
    ensures r.1.resolution == Lost <==> f.view.hasTarget && g.destinationReached && g.timeLeft <= 0.0
    ensures r.1.resolution.Won? <==> f.view.hasTarget && g.destinationReached && g.timeLeft > 0.0 && f.pressed
                                     && SliderClamp(SliderClamp(g.progress - DecayRate * f.dt) + PressGain) >= 1.0
    ensures r.1.resolution.Won? ==> r.1.resolution.knockBack == blowBackDist
    ensures f.view.hasTarget && g.destinationReached && r.1.resolution == Running ==>
              r.0.progress == (if f.pressed then SliderClamp(SliderClamp(g.progress - DecayRate * f.dt) + PressGain)
                               else SliderClamp(g.progress - DecayRate * f.dt))
    ensures r.1.resolution != Running ==> r.0.progress == 0.0 && r.0.timeLeft == EndQTETime - f.dt && !r.0.canvasShown
    ensures f.view.hasTarget && g.destinationReached && r.1.resolution == Running ==> r.0.timeLeft == g.timeLeft - f.dt
    ensures f.view.hasTarget && !g.destinationReached ==> r.0 == g.(destinationReached := f.arrived)
    ensures f.view.hasTarget ==> (r.0.destinationReached <==> f.arrived || (g.destinationReached && r.1.resolution == Running))
    ensures SliderBounded(g) ==> SliderBounded(r.0)
  {
    if !f.view.hasTarget then (g.(timeLeft := limit), Orders(Untouched, false, Running))
    else
      var (moved, orders) :=
        if !g.destinationReached then
          (g, Orders(Go, f.view.inFront && f.view.inFOV && f.view.inRange, Running))
        else
          var (attacked, resolution) := Attacked(g, f.view.targetIsPlayer, f.dt, f.pressed, blowBackDist);
          (attacked.(timeLeft := attacked.timeLeft - f.dt), Orders(Halt, false, resolution));
      (if f.arrived then moved.(destinationReached := true) else moved, orders)
  }

  /** The resolutions of `n` frames with the same inputs. */
  function Run(g: Grab, limit: real, blowBackDist: real, f: Frame, n: nat): seq<Resolution>
    decreases n
  {
    if n == 0 then []
    else
      var (next, orders) := Ticked(g, limit, blowBackDist, f);
      [orders.resolution] + Run(next, limit, blowBackDist, f, n - 1)
  }

  /** A struggle without F presses is lost at the latest on the first frame
      after its remaining time is used up: with `timeLeft <= n * dt`, one of
      the next `n + 1` frames loses. */
  lemma {:induction false} UnansweredGrabIsLost(g: Grab, limit: real, blowBackDist: real, f: Frame, n: nat)
    requires g.destinationReached
    requires f.view.hasTarget && !f.pressed && f.dt > 0.0
    requires g.timeLeft <= n as real * f.dt
    ensures Lost in Run(g, limit, blowBackDist, f, n + 1)
    decreases n
  {
    var (next, orders) := Ticked(g, limit, blowBackDist, f);
    if orders.resolution != Lost {
      assert g.timeLeft > 0.0;
      assert n > 0;
      assert next.destinationReached && next.timeLeft == g.timeLeft - f.dt;
      assert next.timeLeft <= (n - 1) as real * f.dt;
      UnansweredGrabIsLost(next, limit, blowBackDist, f, n - 1);
    }
  }

  /** A frame of struggle with time left and an F press escapes whenever the
      decayed slider stands at 0.9 or more; the escape leaves the slider empty,
      the canvas hidden and the struggle over. */
  lemma PressNearFullEscapes(g: Grab, limit: real, blowBackDist: real, f: Frame)
    requires f.view.hasTarget && g.destinationReached && g.timeLeft > 0.0 && f.pressed
    requires g.progress <= 1.0 && g.progress - DecayRate * f.dt >= 1.0 - PressGain
    ensures Ticked(g, limit, blowBackDist, f).1.resolution == Won(blowBackDist)
    ensures Ticked(g, limit, blowBackDist, f).0.progress == 0.0
    ensures !Ticked(g, limit, blowBackDist, f).0.canvasShown
    ensures Ticked(g, limit, blowBackDist, f).0.destinationReached == f.arrived
  {
  }

  class ZombieActions {
    const detect: ZombieSense.ZombieNPCDetect
    var destinationReached: bool
    var qteTimeLimit: real
    var qteTimeLeft: real
    var blowBackDist: real
    /** `slider.value`. */
    var sliderValue: real
    /** `canvas.activeSelf`. */
    var canvasShown: bool

    function Model(): Grab
      reads this
    {
      Grab(destinationReached, qteTimeLeft, sliderValue, canvasShown)
    }

    /** The slider cannot hold a value outside [0, 1]. */
    ghost predicate Valid()
      reads this
    {
      SliderBounded(Model())
    }

    /** The detector's current fields, as `Update` reads them. */
    function Sees(): View
      reads this, detect
    {
      View(detect.target != null, detect.target != null && detect.target.tag == PlayerTag,
           detect.inFront, detect.inFOV, detect.inRange)
    }

    /** The component with its Inspector defaults (limit 5, time 5, knock-back 7). */
    constructor (detect: ZombieSense.ZombieNPCDetect)
      ensures this.detect == detect && Valid()
      ensures Model() == Grab(false, 5.0, 0.0, false) && qteTimeLimit == 5.0 && blowBackDist == 7.0
    {
      this.detect := detect;
      destinationReached := false;
      qteTimeLimit := 5.0;
      qteTimeLeft := 5.0;
      blowBackDist := 7.0;
      sliderValue := 0.0;
      canvasShown := false;
    }

    method Start()
      modifies this`canvasShown
      ensures !canvasShown
    {
      canvasShown := false;
    }

    /** `arrived` is the agent's arrival test evaluated after this frame's
        orders; `pressed` is `Input.GetKeyDown(KeyCode.F)`. */
    method Update(dt: real, pressed: bool, arrived: bool) returns (orders: Orders)
      requires Valid() && dt >= 0.0
      modifies this
      ensures Valid()
      ensures (Model(), orders) == Ticked(old(Model()), old(qteTimeLimit), old(blowBackDist), Frame(old(Sees()), dt, pressed, arrived))
      ensures qteTimeLimit == old(qteTimeLimit) && blowBackDist == old(blowBackDist)
    {
      if detect.target == null {
        qteTimeLeft := qteTimeLimit;
        return Orders(Untouched, false, Running);
      }
      if !destinationReached {
        var requested := MoveToTarget();
        orders := Orders(Go, requested, Running);
      } else {
        var resolution := QTEAttack(dt, pressed);
        qteTimeLeft := qteTimeLeft - dt;
        orders := Orders(Halt, false, resolution);
      }
      if arrived {
        destinationReached := true;
      }
    }

    /** Returns whether `SetDestination` was called. */
    method MoveToTarget() returns (requested: bool)
      ensures requested <==> detect.target != null && detect.inFront && detect.inFOV && detect.inRange
    {
      requested := detect.target != null && detect.inFront && detect.inFOV && detect.inRange;
    }

    method QTEAttack(dt: real, pressed: bool) returns (resolution: Resolution)
      requires detect.target != null
      modifies this
      ensures (Model(), resolution) == Attacked(old(Model()), detect.target.tag == PlayerTag, dt, pressed, blowBackDist)
      ensures qteTimeLimit == old(qteTimeLimit) && blowBackDist == old(blowBackDist)
    {
      if detect.target.tag == PlayerTag {
        canvasShown := true;
      }
      sliderValue := SliderClamp(sliderValue - DecayRate * dt);
      if sliderValue <= 1.0 && qteTimeLeft <= 0.0 {
        EndQTE();
        return Lost;
      }
      resolution := Running;
      if pressed {
        sliderValue := SliderClamp(sliderValue + PressGain);
        if sliderValue >= 1.0 {
          EndQTE();
          resolution := Won(blowBackDist);
        }
      }
    }

    method EndQTE()
      modifies this`canvasShown, this`sliderValue, this`qteTimeLeft, this`destinationReached
      ensures Model() == Ended(old(Model()))
    {
      canvasShown := false;
      sliderValue := 0.0;
      qteTimeLeft := EndQTETime;
      destinationReached := false;
    }
  }
}
