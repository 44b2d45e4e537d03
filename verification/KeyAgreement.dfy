/** The arithmetic of the two key agreements: Diffie-Hellman, and the password-authenticated exchange of sections 2.5.3,
    2.5.4 and 2.6 of RFC 5054. */
module KeyAgreement {
  import opened Bytes

  function Pow(b: nat, e: nat): nat
  {
    if e == 0 then 1 else b * Pow(b, e - 1)
  }

  function ModExp(b: nat, e: nat, p: nat): nat
    requires p > 0
  {
    Pow(b, e) % p
  }

  function ModMul(a: nat, b: nat, p: nat): nat
    requires p > 0
  {
    a * b % p
  }

  function ModAdd(a: nat, b: nat, p: nat): nat
    requires p > 0
  {
    (a + b) % p
  }

  function ModSub(a: nat, b: nat, p: nat): nat
    requires p > 0
  {
    (a - b) % p
  }

  // ---------------------------------------------------------------------------------------------------------
  // Powers
  // ---------------------------------------------------------------------------------------------------------

  lemma {:induction false} PowAdd(b: nat, x: nat, y: nat)
    ensures Pow(b, x + y) == Pow(b, x) * Pow(b, y)
    decreases x
  {
    if x > 0 {
      PowAdd(b, x - 1, y);
      Associative(b, Pow(b, x - 1), Pow(b, y));
    }
  }

  lemma Associative(a: int, b: int, c: int)
    ensures a * (b * c) == a * b * c
  {
  }

  lemma {:induction false} PowMul(b: nat, x: nat, y: nat)
    ensures Pow(Pow(b, x), y) == Pow(b, x * y)
    decreases y
  {
    if y == 0 {
      assert x * y == 0;
    } else {
      PowMul(b, x, y - 1);
      PowAdd(b, x, x * (y - 1));
      assert x + x * (y - 1) == x * y;
    }
  }

  // ---------------------------------------------------------------------------------------------------------
  // Remainders
  // ---------------------------------------------------------------------------------------------------------

  /** Numbers that differ by a multiple of `p` have the same remainder. */
  lemma SameRemainder(a: int, b: int, p: int, k: int)
    requires p > 0 && a == b + p * k
    ensures a % p == b % p
  {
    var q, r := b / p, b % p;
    assert b == p * q + r;
    assert a == p * (q + k) + r by { assert p * (q + k) == p * q + p * k; }
    DivModUnique(a, p, q + k, r);
  }

  lemma MulRemainder(a: nat, b: nat, p: nat)
    requires p > 0
    ensures a % p * b % p == a * b % p
  {
    var q, r := a / p, a % p;
    assert a == p * q + r;
    assert a * b == r * b + p * (q * b) by {
      assert (p * q + r) * b == p * q * b + r * b;
      Associative(p, q, b);
    }
    SameRemainder(a * b, r * b, p, q * b);
  }

  lemma MulRemainders(a: nat, b: nat, p: nat)
    requires p > 0
    ensures a % p * (b % p) % p == a * b % p
  {
    MulRemainder(a, b % p, p);
    MulRemainder(b, a, p);
    assert a * (b % p) == b % p * a && a * b == b * a;
  }

  /** Exponentiation may reduce its base first. */
  lemma {:induction false} PowRemainder(b: nat, e: nat, p: nat)
    requires p > 0
    ensures Pow(b % p, e) % p == Pow(b, e) % p
  {
    if e > 0 {
      PowRemainder(b, e - 1, p);
      var x, y := Pow(b % p, e - 1), Pow(b, e - 1);
      MulRemainders(b, y, p);
      MulRemainders(b % p, x, p);
      RemainderTwice(b, p);
    }
  }

  lemma RemainderTwice(b: nat, p: nat)
    requires p > 0
    ensures b % p % p == b % p
  {
    ModSmall(b % p, p);
  }

  // ---------------------------------------------------------------------------------------------------------
  // Diffie-Hellman
  // ---------------------------------------------------------------------------------------------------------

  /** Raising a published power to one's own secret gives the generator to the product of the secrets. */
  lemma SharedPower(g: nat, a: nat, b: nat, p: nat)
    requires p > 0
    ensures ModExp(ModExp(g, a, p), b, p) == ModExp(g, a * b, p)
  {
    PowRemainder(Pow(g, a), b, p);
    PowMul(g, a, b);
  }

  /** Both ends compute the same key. */
  lemma SameKey(g: nat, a: nat, b: nat, p: nat)
    requires p > 0
    ensures ModExp(ModExp(g, a, p), b, p) == ModExp(ModExp(g, b, p), a, p)
  {
    SharedPower(g, a, b, p);
    SharedPower(g, b, a, p);
    assert a * b == b * a;
  }

  /** The number of binary digits. */
  function Bits(n: nat): nat
  {
    if n == 0 then 0 else 1 + Bits(n / 2)
  }

  /** A number has more than `k` digits exactly if it is at least two to the `k`. */
  lemma {:induction false} BitsExactly(n: nat, k: nat)
    ensures k < Bits(n) <==> Pow(2, k) <= n
    decreases k
  {
    if k > 0 && n > 0 {
      BitsExactly(n / 2, k - 1);
      var p := Pow(2, k - 1);
      assert Pow(2, k) == 2 * p;
    } else if n == 0 {
      PowPositive(k);
    }
  }

  lemma {:induction false} PowPositive(k: nat)
    ensures Pow(2, k) > 0
  {
    if k > 0 { PowPositive(k - 1); }
  }

  const PRIME_BITS: nat := 2048
  const MARGIN_BITS: nat := 1984

  /** Both published powers, and their distances to the modulus, have more than 1984 binary digits. */
  predicate InRange(prime: nat, gA: nat, gB: nat)
  {
    && MARGIN_BITS < Bits(gA) && gA <= prime && MARGIN_BITS < Bits(prime - gA)
    && MARGIN_BITS < Bits(gB) && gB <= prime && MARGIN_BITS < Bits(prime - gB)
  }

  /** That is: both are at least two to the 1984th away from zero and from the modulus. */
  lemma InRangeExactly(prime: nat, gA: nat, gB: nat, k: nat)
    requires k == MARGIN_BITS
    ensures var margin := Pow(2, k);
            InRange(prime, gA, gB) <==>
              margin <= gA && gA + margin <= prime && margin <= gB && gB + margin <= prime
  {
    hide Bits, Pow;
    BitsExactly(gA, k);
    BitsExactly(gB, k);
    if gA <= prime { BitsExactly(prime - gA, k); }
    if gB <= prime { BitsExactly(prime - gB, k); }
  }

  lemma {:induction false} BitsBelow(n: nat)
    ensures Bits(n) <= n
  {
    if n > 0 { BitsBelow(n / 2); }
  }

  /** The check implies the one that must hold: greater than one and less than the modulus minus one. */
  lemma InRangeIsSafe(prime: nat, gA: nat, gB: nat)
    requires InRange(prime, gA, gB)
    ensures 1 < gA < prime - 1 && 1 < gB < prime - 1
  {
    hide Bits;
    BitsBelow(gA);
    BitsBelow(prime - gA);
    BitsBelow(gB);
    BitsBelow(prime - gB);
  }

  // ---------------------------------------------------------------------------------------------------------
  // The password exchange
  // ---------------------------------------------------------------------------------------------------------

  /** What the client computes from its secret `a`, the password exponent `x` and the server's value. */
  function ClientSecret(g: nat, p: nat, k: nat, x: nat, a: nat, u: nat, serverValue: nat): nat
    requires p > 0
  {
    var v := ModExp(g, x, p);
    var kv := ModMul(k, v, p);
    var t := ModSub(serverValue, kv, p);
    ModExp(t, a + u * x, p)
  }

  function ServerValue(g: nat, p: nat, k: nat, v: nat, b: nat): nat
    requires p > 0
  {
    ModAdd(ModMul(k, v, p), ModExp(g, b, p), p)
  }

  function ServerSecret(p: nat, clientValue: nat, v: nat, u: nat, b: nat): nat
    requires p > 0
  {
    ModExp(ModMul(clientValue, ModExp(v, u, p), p), b, p)
  }

  /** Taking the masked verifier off the server's value leaves the server's power of the generator. */
  lemma Unmasked(kv: nat, gb: nat, p: nat)
    requires p > 0 && gb < p
    ensures ModSub(ModAdd(kv, gb, p), kv, p) == gb
  {
    var s := kv + gb;
    assert s % p - kv == gb + p * -(s / p) by { assert s == p * (s / p) + s % p; }
    SameRemainder(s % p - kv, gb, p, -(s / p));
    ModSmall(gb, p);
  }

  /** The client and a server that knows the verifier agree, for all secrets, exponents and multipliers. */
  lemma SameSecret(g: nat, p: nat, k: nat, x: nat, a: nat, b: nat, u: nat)
    requires p > 0
    ensures var v := ModExp(g, x, p);
            ClientSecret(g, p, k, x, a, u, ServerValue(g, p, k, v, b)) == ServerSecret(p, ModExp(g, a, p), v, u, b)
  {
    hide Pow;
    var v, gb := ModExp(g, x, p), ModExp(g, b, p);
    Unmasked(ModMul(k, v, p), gb, p);
    ClientSide(g, p, x, a, b, u);
    ServerSide(g, p, x, a, b, u);
  }

  lemma ClientSide(g: nat, p: nat, x: nat, a: nat, b: nat, u: nat)
    requires p > 0
    ensures ModExp(ModExp(g, b, p), a + u * x, p) == ModExp(g, b * (a + u * x), p)
  {
    SharedPower(g, b, a + u * x, p);
  }

  lemma ServerSide(g: nat, p: nat, x: nat, a: nat, b: nat, u: nat)
    requires p > 0
    ensures ServerSecret(p, ModExp(g, a, p), ModExp(g, x, p), u, b) == ModExp(g, b * (a + u * x), p)
  {
    SharedPower(g, x, u, p);
    MulRemainders(Pow(g, a), Pow(g, x * u), p);
    PowAdd(g, a, x * u);
    assert ModMul(ModExp(g, a, p), ModExp(g, x * u, p), p) == ModExp(g, a + x * u, p);
    SharedPower(g, a + x * u, b, p);
    assert x * u == u * x;
    assert (a + u * x) * b == b * (a + u * x);
  }
}
