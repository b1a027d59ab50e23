/** `Enemy.EnemyPresence`: every enabled enemy puts itself in the static list
    `AllEnemies` and takes itself out again when disabled. */
module Registry {

  /** The index of the first occurrence of `x` in `s`, or -1. */
  function IndexOf<T(==)>(s: seq<T>, x: T): (i: int)
    ensures -1 <= i < |s|
    ensures i == -1 <==> x !in s
    ensures 0 <= i ==> s[i] == x && x !in s[..i]
    decreases |s|
  {
    if s == [] then -1
    else if s[0] == x then 0
    else
      var j := IndexOf(s[1..], x);
      if j == -1 then -1
      else (assert s[..j + 1] == [s[0]] + s[1..][..j]; j + 1)
  }

  /** `List<T>.Remove(x)`: the first occurrence of `x` is taken out and the other
      elements keep their order; a list without `x` is left as it is. */
  function RemoveFirst<T(==)>(s: seq<T>, x: T): (r: seq<T>)
    ensures x !in s ==> r == s
    ensures x in s ==> r == s[..IndexOf(s, x)] + s[IndexOf(s, x) + 1..]
    ensures multiset(r) == multiset(s) - multiset{x}
  {
    var i := IndexOf(s, x);
    if i == -1 then s
    else
      assert s == s[..i] + [x] + s[i + 1..];
      s[..i] + s[i + 1..]
  }

  /** Enabling an enemy that was not registered and then disabling it gives back
      exactly the registry it started from. */
  lemma EnableThenDisable<T>(s: seq<T>, x: T)
    requires x !in s
    ensures RemoveFirst(s + [x], x) == s
  {
    assert (s + [x])[..|s|] == s;
  }

  /** `EnemyPresence.AllEnemies`; a fresh registry is empty. */
  class EnemyRegistry {
    var allEnemies: seq<EnemyPresence>

    constructor ()
      ensures allEnemies == []
    {
      allEnemies := [];
    }
  }

  class EnemyPresence {
    /** The distance at which the vignette starts to show this enemy. */
    const detectionRange: real

    constructor (detectionRange: real)
      ensures this.detectionRange == detectionRange
    {
      this.detectionRange := detectionRange;
    }

    method OnEnable(registry: EnemyRegistry)
      modifies registry
      ensures registry.allEnemies == old(registry.allEnemies) + [this]
    {
      registry.allEnemies := registry.allEnemies + [this];
    }

    method OnDisable(registry: EnemyRegistry)
      modifies registry
      ensures registry.allEnemies == RemoveFirst(old(registry.allEnemies), this)
    {
      registry.allEnemies := RemoveFirst(registry.allEnemies, this);
    }
  }
}
