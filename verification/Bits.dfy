/** Exclusive or on natural numbers, as the bitwise operator gives it on unsigned words. */
module Bits {

  /** Bitwise exclusive or, on numbers. */
  function Xor(a: nat, b: nat): nat {
    if a == 0 && b == 0 then 0 else 2 * Xor(a / 2, b / 2) + (a + b) % 2
  }

  lemma XorStep(a: nat, b: nat)
    ensures Xor(a, b) == 2 * Xor(a / 2, b / 2) + (a + b) % 2
  {
  }

  lemma Halves(x: nat, p: nat, y: nat, q: nat)
    requires 2 * x + p == 2 * y + q && p < 2 && q < 2
    ensures x == y && p == q
  {
  }

  lemma SameParity(a: nat, b: nat, t: nat)
    requires (a + t) % 2 == (b + t) % 2
    ensures a % 2 == b % 2
  {
  }

  lemma {:induction false} XorCancels(a: nat, b: nat, t: nat)
    requires Xor(a, t) == Xor(b, t)
    ensures a == b
    decreases a + b + t
  {
    if a + b + t > 0 {
      XorStep(a, t);
      XorStep(b, t);
      Halves(Xor(a / 2, t / 2), (a + t) % 2, Xor(b / 2, t / 2), (b + t) % 2);
      XorCancels(a / 2, b / 2, t / 2);
      SameParity(a, b, t);
    }
  }

  lemma {:induction false} XorUndone(a: nat, b: nat)
    ensures Xor(Xor(a, b), b) == a
    decreases a + b
  {
    if a + b > 0 {
      var half := Xor(a / 2, b / 2);
      XorStep(a, b);
      XorUndone(a / 2, b / 2);
      XorStep(Xor(a, b), b);
      TopAndLow(half, (a + b) % 2);
      LowBitBack(half, a, b);
    }
  }

  lemma TopAndLow(half: nat, low: nat)
    requires low < 2
    ensures (2 * half + low) / 2 == half && (2 * half + low) % 2 == low
  {
  }

  lemma LowBitBack(half: nat, a: nat, b: nat)
    ensures (2 * half + (a + b) % 2 + b) % 2 == a % 2
  {
  }

  lemma {:induction false} XorBelow(a: nat, b: nat, bits: nat)
    requires a < Pow2(bits) && b < Pow2(bits)
    ensures Xor(a, b) < Pow2(bits)
  {
    if bits > 0 {
      XorStep(a, b);
      XorBelow(a / 2, b / 2, bits - 1);
    }
  }

  function Pow2(n: nat): nat {
    if n == 0 then 1 else 2 * Pow2(n - 1)
  }
}
