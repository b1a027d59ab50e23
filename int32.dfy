/** C#'s `int`: a 32-bit two's-complement integer whose `+` and `-` wrap around. */
module Int32 {

  const Modulus: int := 0x1_0000_0000

  type i32 = x: int | -0x8000_0000 <= x < 0x8000_0000

  /** The value C#'s unchecked arithmetic stores for the mathematical result `x`. */
  function Wrap(x: int): (r: i32)
    ensures (x - r) % Modulus == 0
    ensures -0x8000_0000 <= x < 0x8000_0000 ==> r == x
  {
    ((x + 0x8000_0000) % Modulus) - 0x8000_0000
  }

  /** Wrapping only depends on the value modulo 2^32. */
  lemma {:induction false} WrapCongruent(x: int, y: int)
    requires (x - y) % Modulus == 0
    ensures Wrap(x) == Wrap(y)
  {
    var q := (x - y) / Modulus;
    assert x == y + q * Modulus;
    assert (x + 0x8000_0000) % Modulus == (y + 0x8000_0000 + q * Modulus) % Modulus;
    ModAddMultiple(y + 0x8000_0000, q);
  }

  lemma {:induction false} ModAddMultiple(a: int, q: int)
    ensures (a + q * Modulus) % Modulus == a % Modulus
  {
    var r := a % Modulus;
    var d := a / Modulus;
    assert a == d * Modulus + r;
    assert a + q * Modulus == (d + q) * Modulus + r;
  }

  /** Adding an amount and later subtracting the same amount gives back the
      original value, even when the sum wrapped around. */
  lemma {:induction false} WrapAddSub(m: i32, a: i32)
    ensures Wrap(Wrap(m + a) - a) == m
  {
    var w := Wrap(m + a);
    assert ((w - a) - m) % Modulus == 0 by {
      assert (w - a) - m == -((m + a) - w);
      NegMod((m + a) - w);
    }
    WrapCongruent(w - a, m);
  }

  lemma {:induction false} NegMod(x: int)
    requires x % Modulus == 0
    ensures (-x) % Modulus == 0
  {
    var q := x / Modulus;
    assert x == q * Modulus;
    assert -x == (-q) * Modulus;
  }
}
