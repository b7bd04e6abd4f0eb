/** 32-bit unsigned time and counters: wrap-around difference, sum and half-range comparison. */
module Words {
  const MODULUS := 0x1_0000_0000
  const HALF := 0x8000_0000

  type word = n: nat | n < MODULUS

  function Minus(a: word, b: word): (d: word) {
    if a >= b then a - b else a - b + MODULUS
  }

  function Plus(a: word, n: nat): word {
    (a + n) % MODULUS
  }

  /** `a` is at or after `b`, read modulo 2^32. */
  predicate Reached(a: word, b: word) {
    Minus(a, b) < HALF
  }

  /** A true, unbounded instant as the counter shows it. */
  function Wrap(t: nat): word {
    t % MODULUS
  }

  /** Within half a range the wrapped comparison decides the true order, whichever instant is later. */
  lemma ReachedIsOrder(t: nat, u: nat)
    requires t < u + HALF && u <= t + HALF
    ensures Reached(Wrap(t), Wrap(u)) <==> u <= t
  {
    DifferenceIsTrue(t, u);
  }

  lemma DifferenceIsTrue(t: nat, u: nat)
    requires t < u + HALF && u <= t + HALF
    ensures Minus(Wrap(t), Wrap(u)) == if u <= t then t - u else t - u + MODULUS
  {
    var qt, qu := t / MODULUS, u / MODULUS;
    assert t == qt * MODULUS + Wrap(t) && u == qu * MODULUS + Wrap(u);
    assert -1 <= qt - qu <= 1;
  }

  lemma WrapPlus(t: nat, n: nat)
    ensures Plus(Wrap(t), n) == Wrap(t + n)
  {
    var q := t / MODULUS;
    assert t == q * MODULUS + Wrap(t);
    WrapShift(Wrap(t) + n, q);
  }

  lemma {:induction false} WrapShift(r: nat, q: nat)
    ensures (q * MODULUS + r) % MODULUS == r % MODULUS
  {
    if q > 0 {
      WrapShift(r, q - 1);
      var s := (q - 1) * MODULUS + r;
      assert q * MODULUS + r == s + MODULUS;
      assert (s + MODULUS) % MODULUS == s % MODULUS;
    }
  }
}
