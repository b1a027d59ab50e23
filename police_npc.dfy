/** `PoliceNPC`: a checkpoint officer whose queue of waiting NPCs is drained
    one entry per `lineTime` seconds; once the queue is empty the officer
    walks to the player. */
module Police {
  import opened Scene

  /** The queue `npcLine` and the drain `timer`. */
  datatype Line = Line(npcLine: seq<GameObject>, timer: real)

  /** `HandleTimer`: nothing while the queue is empty; otherwise the timer
      accumulates `dt`, and on reaching `lineTime` exactly one entry (the
      front one) leaves and the timer restarts from 0, however large `dt` was.
      Also returns the removed entry (destroyed by `RemoveOneNPC`), if any. */
  function TimerHandled(l: Line, dt: real, lineTime: real): (r: (Line, GameObject?))
    ensures l.npcLine == [] ==> r == (l, null)
    ensures l.npcLine != [] && l.timer + dt >= lineTime ==> r == (Line(l.npcLine[1..], 0.0), l.npcLine[0])
    ensures l.npcLine != [] && l.timer + dt < lineTime ==> r == (Line(l.npcLine, l.timer + dt), null)
    ensures |l.npcLine| - 1 <= |r.0.npcLine| <= |l.npcLine|
  {
    if l.npcLine == [] then (l, null)
    else
      var timer := l.timer + dt;
      if timer >= lineTime then (Line(l.npcLine[1..], 0.0), l.npcLine[0])
      else (Line(l.npcLine, timer), null)
  }

  /** Where `FollowPlayer` sent the agent: nowhere, or to the player with the
      officer's stopping distance. */
  datatype Chase = NoChase | ChaseTo(player: GameObject, stoppingDistance: real)

  /** The officer's mutable state: the queue and the remembered player. */
  datatype Post = Post(line: Line, player: GameObject?)

  /** One `Update`. `found` is what `GameObject.FindGameObjectWithTag("Player")`
      returns, consulted only while no player is remembered. The officer chases
      exactly when the queue is empty after this frame's drain (also in the
      frame that empties it) and a player is known or found. */
  function Updated(p: Post, dt: real, lineTime: real, stopDistance: real, found: GameObject?): (r: (Post, Chase))
    ensures r.0.line == TimerHandled(p.line, dt, lineTime).0
    ensures r.1.ChaseTo? <==> r.0.line.npcLine == [] && (p.player != null || found != null)
    ensures r.1.ChaseTo? ==> r.1.player == r.0.player && r.1.stoppingDistance == stopDistance
    ensures r.0.player == if p.player == null && r.0.line.npcLine == [] then found else p.player
  {
    var line := TimerHandled(p.line, dt, lineTime).0;
    if line.npcLine != [] then (Post(line, p.player), NoChase)
    else if p.player != null then (Post(line, p.player), ChaseTo(p.player, stopDistance))
    else if found == null then (Post(line, null), NoChase)
    else (Post(line, found), ChaseTo(found, stopDistance))
  }

  /** The queue after `n` frames of `dt` each. */
  function Drained(l: Line, dt: real, lineTime: real, n: nat): Line
    decreases n
  {
    if n == 0 then l else TimerHandled(Drained(l, dt, lineTime, n - 1), dt, lineTime).0
  }

  lemma {:induction false} DrainedSplit(l: Line, dt: real, lineTime: real, a: nat, b: nat)
    ensures Drained(l, dt, lineTime, a + b) == Drained(Drained(l, dt, lineTime, a), dt, lineTime, b)
    decreases b
  {
    if b > 0 {
      DrainedSplit(l, dt, lineTime, a, b - 1);
      assert a + b - 1 == a + (b - 1);
    }
  }

  /** One more frame of `dt` adds `dt` to j*dt. */
  lemma NextMultiple(j: nat, dt: real)
    ensures j as real * dt + dt == (j + 1) as real * dt
  {
  }

  lemma MulMono(x: nat, y: nat, dt: real)
    requires x <= y && dt > 0.0
    ensures x as real * dt <= y as real * dt
  {
  }

  /** With (k-1)*dt < lineTime, a fresh timer removes nothing in the
      first k-1 frames: after j < k frames the timer reads j*dt. */
  lemma {:induction false} OnePeriodPrefix(l: Line, dt: real, lineTime: real, k: nat, j: nat)
    requires l.timer == 0.0 && l.npcLine != [] && dt > 0.0 && k >= 1
    requires (k - 1) as real * dt < lineTime
    requires j < k
    ensures Drained(l, dt, lineTime, j) == Line(l.npcLine, j as real * dt)
    decreases j
  {
    if j > 0 {
      OnePeriodPrefix(l, dt, lineTime, k, j - 1);
      MulMono(j, k - 1, dt);
      NextMultiple(j - 1, dt);
    }
  }

  /** ... and with lineTime <= k*dt, frame k removes exactly the front entry. */
  lemma OnePeriod(l: Line, dt: real, lineTime: real, k: nat)
    requires l.timer == 0.0 && l.npcLine != [] && dt > 0.0 && k >= 1
    requires (k - 1) as real * dt < lineTime <= k as real * dt
    ensures Drained(l, dt, lineTime, k) == Line(l.npcLine[1..], 0.0)
  {
    OnePeriodPrefix(l, dt, lineTime, k, k - 1);
    NextMultiple(k - 1, dt);
  }

  /** Entries only ever leave from the front: any number of frames leaves
      a suffix of the queue, in its original order. */
  lemma {:induction false} DrainKeepsOrder(l: Line, dt: real, lineTime: real, n: nat)
    ensures |Drained(l, dt, lineTime, n).npcLine| <= |l.npcLine|
    ensures Drained(l, dt, lineTime, n).npcLine == l.npcLine[|l.npcLine| - |Drained(l, dt, lineTime, n).npcLine|..]
    decreases n
  {
    if n > 0 {
      DrainKeepsOrder(l, dt, lineTime, n - 1);
      var before := Drained(l, dt, lineTime, n - 1).npcLine;
      var after := Drained(l, dt, lineTime, n).npcLine;
      if after != before {
        assert after == before[1..];
        assert l.npcLine[|l.npcLine| - |before|..][1..] == l.npcLine[|l.npcLine| - |after|..];
      }
    }
  }

  /** Draining is one entry per `k` frames: after m*k frames from a fresh
      timer, the first m entries are gone and the timer is back at 0. */
  lemma {:induction false} DrainRate(l: Line, dt: real, lineTime: real, k: nat, m: nat)
    requires l.timer == 0.0 && dt > 0.0 && k >= 1
    requires (k - 1) as real * dt < lineTime <= k as real * dt
    requires m <= |l.npcLine|
    ensures Drained(l, dt, lineTime, m * k) == Line(l.npcLine[m..], 0.0)
    decreases m
  {
    if m > 0 {
      DrainRate(l, dt, lineTime, k, m - 1);
      var mid := Drained(l, dt, lineTime, (m - 1) * k);
      DrainedSplit(l, dt, lineTime, (m - 1) * k, k);
      assert (m - 1) * k + k == m * k;
      OnePeriod(mid, dt, lineTime, k);
      assert l.npcLine[m - 1..][1..] == l.npcLine[m..];
    }
  }

  /** Three waiting NPCs and a 5-second interval, at one frame per second:
      after 15 frames the queue is empty, so the officer is chasing by then. */
  lemma ThreeInLine(a: GameObject, b: GameObject, c: GameObject)
    ensures Drained(Line([a, b, c], 0.0), 1.0, 5.0, 15) == Line([], 0.0)
  {
    DrainRate(Line([a, b, c], 0.0), 1.0, 5.0, 5, 3);
  }

  class PoliceNPC {
    var player: GameObject?
    var stopDistance: real
    var npcLine: seq<GameObject>
    var spacing: real
    var moveSpeed: real
    var lineTime: real
    var timer: real

    function Model(): Post
      reads this
    {
      Post(Line(npcLine, timer), player)
    }

    /** The officer with the scene's queue and its Inspector defaults
        (stop 1.5, spacing 2, speed 5, 60 seconds per entry). */
    constructor (player: GameObject?, npcLine: seq<GameObject>)
      ensures Model() == Post(Line(npcLine, 0.0), player)
      ensures stopDistance == 1.5 && spacing == 2.0 && moveSpeed == 5.0 && lineTime == 60.0
    {
      this.player := player;
      this.npcLine := npcLine;
      stopDistance := 1.5;
      spacing := 2.0;
      moveSpeed := 5.0;
      lineTime := 60.0;
      timer := 0.0;
    }

    /** Returns the chase order and the slot offsets the queue entries are
        moved toward. */
    method Update(dt: real, found: GameObject?) returns (chase: Chase, slots: seq<real>)
      modifies this
      ensures (Model(), chase) == Updated(old(Model()), dt, old(lineTime), old(stopDistance), found)
      ensures |slots| == |npcLine|
      ensures |slots| > 0 ==> slots[0] == 0.0
      ensures forall i :: 0 < i < |slots| ==> slots[i] == slots[i - 1] - spacing
      ensures stopDistance == old(stopDistance) && spacing == old(spacing) && lineTime == old(lineTime)
    {
      HandleTimer(dt);
      slots := UpdateNPCPositions();
      chase := NoChase;
      if |npcLine| == 0 {
        chase := FollowPlayer(found);
      }
    }

    method FollowPlayer(found: GameObject?) returns (chase: Chase)
      modifies this`player
      ensures old(player) != null ==> player == old(player)
      ensures old(player) == null ==> player == found
      ensures chase == if player == null then NoChase else ChaseTo(player, stopDistance)
    {
      if player == null {
        var playerObj := found;
        if playerObj == null {
          return NoChase;
        }
        player := playerObj;
      }
      chase := ChaseTo(player, stopDistance);
    }

    method HandleTimer(dt: real)
      modifies this`npcLine, this`timer
      ensures Line(npcLine, timer) == TimerHandled(old(Line(npcLine, timer)), dt, lineTime).0
    {
      if |npcLine| == 0 {
        return;
      }
      timer := timer + dt;
      if timer >= lineTime {
        var npc := RemoveOneNPC();
        timer := 0.0;
      }
    }

    /** Takes the front entry out; the rest move up one place in order. */
    method RemoveOneNPC() returns (npc: GameObject)
      requires |npcLine| > 0
      modifies this`npcLine
      ensures npc == old(npcLine)[0]
      ensures |npcLine| == |old(npcLine)| - 1
      ensures forall i :: 0 <= i < |npcLine| ==> npcLine[i] == old(npcLine)[i + 1]
    {
      npc := npcLine[0];
      npcLine := npcLine[1..];
    }

    /** The offset along the start point's forward axis that entry i is moved
        toward: the front entry at the start point, each later one `spacing`
        further back. */
    method UpdateNPCPositions() returns (slots: seq<real>)
      ensures |slots| == |npcLine|
      ensures |slots| > 0 ==> slots[0] == 0.0
      ensures forall i :: 0 < i < |slots| ==> slots[i] == slots[i - 1] - spacing
    {
      slots := [];
      for i := 0 to |npcLine|
        invariant |slots| == i
        invariant i > 0 ==> slots[0] == 0.0
        invariant i > 0 ==> slots[i - 1] == -spacing * (i - 1) as real
        invariant forall j :: 0 < j < i ==> slots[j] == slots[j - 1] - spacing
      {
        if i > 0 {
          NextMultiple(i - 1, -spacing);
        }
        slots := slots + [-spacing * i as real];
      }
    }
  }
}
