/** Bytes, fixed-width integers and bitwise operations on naturals. */
module Bytes {

  type byte = x: int | 0 <= x < 256

  function Pow256(k: nat): (p: nat)
    ensures p >= 1
  {
    if k == 0 then 1 else 256 * Pow256(k - 1)
  }

  /** The low `width` bytes of `n`, least significant first. */
  function LE(n: nat, width: nat): (b: seq<byte>)
    ensures |b| == width
    decreases width
  {
    if width == 0 then [] else [n % 256] + LE(n / 256, width - 1)
  }

  function FromLE(b: seq<byte>): nat
  {
    if b == [] then 0 else b[0] + 256 * FromLE(b[1..])
  }

  function Zeros(n: nat): (z: seq<byte>)
    ensures |z| == n
  {
    seq(n, i => 0)
  }

  lemma {:induction false} FromLEBound(b: seq<byte>)
    ensures FromLE(b) < Pow256(|b|)
  {
    if b != [] { FromLEBound(b[1..]); }
  }

  lemma {:induction false} FromLEInverse(n: nat, width: nat)
    ensures FromLE(LE(n, width)) == n % Pow256(width)
    decreases width
  {
    if width > 0 {
      FromLEInverse(n / 256, width - 1);
      assert LE(n, width)[1..] == LE(n / 256, width - 1);
      ModNested(n, Pow256(width - 1));
    }
  }

  lemma ModNested(n: nat, m: nat)
    requires m > 0
    ensures n % (256 * m) == n % 256 + 256 * ((n / 256) % m)
  {
    var q, r := (n / 256) / m, (n / 256) % m;
    assert n / 256 == q * m + r;
    assert n == (256 * m) * q + (n % 256 + 256 * r) by {
      assert n == 256 * (n / 256) + n % 256;
      assert 256 * (q * m) == (256 * m) * q;
    }
    DivModUnique(n, 256 * m, q, n % 256 + 256 * r);
  }

  lemma DivModUnique(n: int, d: int, q: int, r: int)
    requires 0 <= r < d && n == d * q + r
    ensures n / d == q && n % d == r
  {
    var q', r' := n / d, n % d;
    assert n == d * q' + r';
    assert d * (q - q') == r' - r;
    if q > q' {
      assert d * (q - q') >= d by { assert (q - q') >= 1; MulMono(d, 1, q - q'); }
      assert false;
    } else if q < q' {
      assert d * (q' - q) >= d by { MulMono(d, 1, q' - q); }
      assert false;
    }
  }

  lemma MulMono(d: int, a: int, b: int)
    requires 0 <= d && a <= b
    ensures d * a <= d * b
  {
  }

  /** A fixed-width field read back from the front of a buffer. */
  lemma FieldRoundTrip(n: nat, width: nat, rest: seq<byte>)
    requires n < Pow256(width)
    ensures FromLE((LE(n, width) + rest)[..width]) == n
    ensures (LE(n, width) + rest)[width..] == rest
  {
    FromLEInverse(n, width);
    assert (LE(n, width) + rest)[..width] == LE(n, width);
    ModSmall(n, Pow256(width));
  }

  lemma ModSmall(n: nat, m: nat)
    requires n < m
    ensures n % m == n
  {
  }

  lemma Widths()
    ensures Pow256(2) == 0x1_0000 && Pow256(4) == 0x1_0000_0000 && Pow256(8) == 0x1_0000_0000_0000_0000
  {
    assert Pow256(1) == 256;
    assert Pow256(2) == 256 * Pow256(1);
    assert Pow256(3) == 256 * Pow256(2);
    assert Pow256(4) == 256 * Pow256(3);
    assert Pow256(5) == 256 * Pow256(4);
    assert Pow256(6) == 256 * Pow256(5);
    assert Pow256(7) == 256 * Pow256(6);
    assert Pow256(8) == 256 * Pow256(7);
  }

  /** Bitwise exclusive or of naturals. */
  function Xor(a: nat, b: nat): nat
    decreases a + b
  {
    if a == 0 then b else if b == 0 then a else (a % 2 + b % 2) % 2 + 2 * Xor(a / 2, b / 2)
  }

  lemma XorZero(b: nat)
    ensures Xor(0, b) == b && Xor(b, 0) == b
  {
  }

  lemma XorBits(a: nat, b: nat)
    requires a > 0 && b > 0
    ensures Xor(a, b) == (a % 2 + b % 2) % 2 + 2 * Xor(a / 2, b / 2)
  {
  }

  lemma XorHalf(a: nat, b: nat)
    ensures Xor(a, b) == (a % 2 + b % 2) % 2 + 2 * Xor(a / 2, b / 2)
  {
    hide Xor;
    if a == 0 {
      XorZero(b);
      XorZero(b / 2);
    } else if b == 0 {
      XorZero(a);
      XorZero(a / 2);
    } else {
      XorBits(a, b);
    }
  }

  lemma {:induction false} XorSelf(b: nat)
    ensures Xor(b, b) == 0
  {
    hide Xor;
    if b == 0 { XorZero(0); } else {
      XorSelf(b / 2);
      XorBits(b, b);
    }
  }

  /** Combining twice with the same number undoes itself. */
  lemma {:induction false} XorTwice(a: nat, b: nat)
    ensures Xor(Xor(a, b), b) == a
    decreases a + b
  {
    hide Xor;
    XorZero(a);
    XorZero(b);
    if a == 0 {
      XorSelf(b);
    } else if b > 0 {
      XorTwice(a / 2, b / 2);
      var half := Xor(a / 2, b / 2);
      XorBits(a, b);
      var x := Xor(a, b);
      assert x / 2 == half && x % 2 == (a % 2 + b % 2) % 2;
      XorHalf(x, b);
    }
  }

  lemma {:induction false} XorBound(a: nat, b: nat, bound: nat)
    requires a < bound && b < bound && PowerOfTwo(bound)
    ensures Xor(a, b) < bound
    decreases bound
  {
    if a > 0 && b > 0 { XorBound(a / 2, b / 2, bound / 2); }
  }

  predicate PowerOfTwo(n: nat)
  {
    n == 1 || (n > 1 && n % 2 == 0 && PowerOfTwo(n / 2))
  }

  lemma {:induction false} PowersMultiply(a: nat, b: nat)
    requires PowerOfTwo(a) && PowerOfTwo(b)
    ensures PowerOfTwo(a * b)
    decreases b
  {
    if b > 1 {
      PowersMultiply(a, b / 2);
      var half := a * (b / 2);
      assert a * b == 2 * half;
    }
  }

  lemma MachineWords()
    ensures PowerOfTwo(256) && PowerOfTwo(0x1_0000_0000_0000_0000)
  {
    assert PowerOfTwo(2);
    assert PowerOfTwo(4);
    PowersMultiply(4, 4);
    PowersMultiply(16, 16);
    PowersMultiply(256, 256);
    PowersMultiply(0x1_0000, 0x1_0000);
    PowersMultiply(0x1_0000_0000, 0x1_0000_0000);
  }

  function XorByte(a: byte, b: byte): byte
  {
    MachineWords();
    XorBound(a, b, 256);
    Xor(a, b)
  }
}
