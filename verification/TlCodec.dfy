/** The TL wire primitives: 32- and 64-bit words, and strings padded to a multiple of four bytes. */
module TlCodec {
  import opened Bytes

  /** A value taken from the front of a buffer, or the parser's error state. */
  datatype Parsed<+T> = Ok(value: T, rest: seq<byte>) | Fail

  function FetchWord(b: seq<byte>, width: nat): Parsed<nat>
  {
    if |b| < width then Fail else Ok(FromLE(b[..width]), b[width..])
  }

  lemma WordRoundTrip(n: nat, width: nat, rest: seq<byte>)
    requires n < Pow256(width)
    ensures FetchWord(LE(n, width) + rest, width) == Ok(n, rest)
  {
    FieldRoundTrip(n, width, rest);
  }

  /** The bytes that complete a length to a multiple of four. */
  function Padding(len: nat): (n: nat)
    ensures n < 4 && (len + n) % 4 == 0
  {
    if len % 4 == 0 then 0 else 4 - len % 4
  }

  function StoreString(s: seq<byte>): seq<byte>
    requires |s| < 0x1_0000_0000
  {
    if |s| < 254 then [|s|] + s + Zeros(Padding(|s| + 1))
    else if |s| < 0x100_0000 then [254] + LE(|s|, 3) + s + Zeros(Padding(|s|))
    else [255] + LE(|s|, 4) + [0, 0, 0] + s + Zeros(Padding(|s|))
  }

  function FetchString(b: seq<byte>): Parsed<seq<byte>>
  {
    if |b| < 4 then Fail
    else if b[0] < 254 then
      var aligned := b[0] / 4 * 4;
      if |b| - 4 < aligned then Fail else Ok(b[1..1 + b[0]], b[4 + aligned..])
    else if b[0] == 254 then
      var len := FromLE(b[1..4]);
      var aligned := (len + 3) / 4 * 4;
      if |b| - 4 < aligned then Fail else Ok(b[4..4 + len], b[4 + aligned..])
    else if |b| < 8 then Fail
    else
      var len := FromLE(b[1..8]);
      var aligned := (len + 3) / 4 * 4;
      if |b| - 8 < aligned then Fail else Ok(b[8..8 + len], b[8 + aligned..])
  }

  /** Every string short enough to be stored is read back, whichever of the three length forms it takes. */
  lemma StringRoundTrip(s: seq<byte>, rest: seq<byte>)
    requires |s| < 0x1_0000_0000
    ensures FetchString(StoreString(s) + rest) == Ok(s, rest)
  {
    if |s| < 254 { ShortString(s, rest); }
    else if |s| < 0x100_0000 { MediumString(s, rest); }
    else { LongString(s, rest); }
  }

  lemma Slices(head: seq<byte>, s: seq<byte>, pad: seq<byte>, rest: seq<byte>)
    ensures var b := head + s + pad + rest;
            && b[..|head|] == head
            && b[|head|..|head| + |s|] == s
            && b[|head| + |s| + |pad|..] == rest
  {
  }

  lemma ShortString(s: seq<byte>, rest: seq<byte>)
    requires |s| < 254
    ensures FetchString(StoreString(s) + rest) == Ok(s, rest)
  {
    Slices([|s|], s, Zeros(Padding(|s| + 1)), rest);
    ShortAlignment(|s|);
  }

  lemma MediumString(s: seq<byte>, rest: seq<byte>)
    requires 254 <= |s| < 0x100_0000
    ensures FetchString(StoreString(s) + rest) == Ok(s, rest)
  {
    var head := [254] + LE(|s|, 3);
    var b := StoreString(s) + rest;
    Slices(head, s, Zeros(Padding(|s|)), rest);
    assert b[1..4] == b[..4][1..] == LE(|s|, 3);
    Pow256Small();
    FromLEInverse(|s|, 3);
    AlignmentUp(|s|);
  }

  lemma LongString(s: seq<byte>, rest: seq<byte>)
    requires 0x100_0000 <= |s| < 0x1_0000_0000
    ensures FetchString(StoreString(s) + rest) == Ok(s, rest)
  {
    var head := [255] + LE(|s|, 4) + [0, 0, 0];
    var b := StoreString(s) + rest;
    Slices(head, s, Zeros(Padding(|s|)), rest);
    assert b[1..8] == b[..8][1..] == LE(|s|, 4) + [0, 0, 0];
    LongLength(|s|);
    AlignmentUp(|s|);
  }

  lemma ShortAlignment(n: nat)
    ensures 4 + n / 4 * 4 == 1 + n + Padding(n + 1)
  {
  }

  lemma AlignmentUp(n: nat)
    ensures (n + 3) / 4 * 4 == n + Padding(n)
  {
  }

  lemma Pow256Small()
    ensures Pow256(3) == 0x100_0000 && Pow256(4) == 0x1_0000_0000
  {
    assert Pow256(1) == 256 * Pow256(0);
    assert Pow256(2) == 256 * Pow256(1);
    assert Pow256(3) == 256 * Pow256(2);
    assert Pow256(4) == 256 * Pow256(3);
  }

  lemma {:induction false} FromLEZeros(b: seq<byte>, z: seq<byte>)
    requires forall i :: 0 <= i < |z| ==> z[i] == 0
    ensures FromLE(b + z) == FromLE(b)
    decreases |b| + |z|
  {
    if b != [] {
      assert (b + z)[1..] == b[1..] + z;
      FromLEZeros(b[1..], z);
    } else if z != [] {
      assert b + z == z;
      FromLEZeros([], z[1..]);
      assert [] + z[1..] == z[1..];
    } else {
      assert b + z == b;
    }
  }

  lemma LongLength(n: nat)
    requires n < 0x1_0000_0000
    ensures FromLE(LE(n, 4) + [0, 0, 0]) == n
  {
    Pow256Small();
    FromLEInverse(n, 4);
    FromLEZeros(LE(n, 4), [0, 0, 0]);
  }
}
