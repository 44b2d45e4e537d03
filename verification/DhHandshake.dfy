/** One end of a Diffie-Hellman exchange. */
module DhHandshake {
  import opened Bytes
  import opened Options
  import opened KeyAgreement

  datatype CheckError = HashMismatch | BadConfig | OutOfRange

  /** `Stopped` stands for the end of the program: the last check insists on the size of the modulus. */
  datatype CheckResult = Passed | Refused(error: CheckError) | Stopped

  /** `safePrime` stands for the primality checks, `hash` for SHA-256 and `keyId` for the part of SHA-1 that identifies
      a key. */
  datatype Env = Env(safePrime: nat -> bool, hash: seq<byte> -> nat, keyId: nat -> nat)

  /** The number a big-endian string stands for, and the shortest such string. */
  function FromBinary(b: seq<byte>): nat
  {
    if b == [] then 0 else 256 * FromBinary(b[..|b| - 1]) + b[|b| - 1]
  }

  function ToBinary(n: nat): seq<byte>
  {
    if n == 0 then [] else ToBinary(n / 256) + [n % 256]
  }

  lemma {:induction false} BinaryRoundTrip(n: nat)
    ensures FromBinary(ToBinary(n)) == n
  {
    if n > 0 {
      BinaryRoundTrip(n / 256);
      assert ToBinary(n)[..|ToBinary(n)| - 1] == ToBinary(n / 256);
    }
  }

  /** A leading zero byte does not change the number; whether it changes the hash is up to the hash. */
  lemma {:induction false} LeadingZero(b: seq<byte>)
    ensures FromBinary([0] + b) == FromBinary(b)
    decreases |b|
  {
    if b == [] {
      assert [0] + b == [0] && [0][..0] == [];
    } else {
      LeadingZero(b[..|b| - 1]);
      assert ([0] + b)[..|b|] == [0] + b[..|b| - 1];
    }
  }

  /** The remainders for which a generator from 2 to 7 is a quadratic residue. */
  predicate ResidueOk(g: nat, prime: nat)
  {
    match g
    case 2 => prime % 8 == 7
    case 3 => prime % 3 == 2
    case 4 => true
    case 5 => prime % 5 == 1 || prime % 5 == 4
    case 6 => prime % 24 == 19 || prime % 24 == 23
    case 7 => prime % 7 == 3 || prime % 7 == 5 || prime % 7 == 6
    case _ => false
  }

  predicate GoodConfig(env: Env, g: nat, prime: nat)
  {
    Bits(prime) == PRIME_BITS && ResidueOk(g, prime) && env.safePrime(prime)
  }

  class DhHandshake {
    const env: Env
    var g: nat
    var prime: nat
    var b: nat
    var gB: nat
    var hasConfig: bool
    var gA: nat
    var hasGA: bool
    var gAHash: Option<nat>
    var okGAHash: bool
    ghost var received: seq<byte>

    /** The published power belongs to the secret, the other power is the number received, and the flag says whether
        what was received, byte for byte, has the announced hash. */
    ghost predicate Valid()
      reads this
    {
      && (hasConfig ==> prime > 0 && gB == ModExp(g, b, prime))
      && (hasGA ==> gA == FromBinary(received))
      && (hasGA && gAHash.Some? ==> (okGAHash <==> env.hash(received) == gAHash.value))
    }

    /** What was received has the hash that was announced, if one was. */
    ghost predicate Announced()
      reads this
    {
      gAHash.Some? ==> env.hash(received) == gAHash.value
    }

    constructor (env: Env)
      ensures Valid() && this.env == env && !hasConfig && !hasGA && gAHash.None?
    {
      this.env := env;
      g, prime, b, gB, hasConfig := 0, 0, 0, 0, false;
      gA, hasGA, gAHash, okGAHash := 0, false, None, false;
      received := [];
    }

    method SetConfig(gInt: nat, p: nat, random: nat)
      requires Valid() && p > 0
      modifies `g, `prime, `b, `gB, `hasConfig
      ensures Valid() && hasConfig && g == gInt && prime == p && b == random
    {
      hasConfig, prime, b, g := true, p, random, gInt;
      gB := ModExp(g, b, prime);
    }

    method SetGAHash(value: nat)
      requires Valid() && !hasGA
      modifies `gAHash, `okGAHash
      ensures Valid() && gAHash == Some(value)
    {
      gAHash, okGAHash := Some(value), false;
    }

    method SetGA(value: seq<byte>)
      requires Valid()
      modifies `gA, `hasGA, `okGAHash, `received
      ensures Valid() && hasGA && received == value
    {
      hasGA := true;
      if gAHash.Some? { okGAHash := env.hash(value) == gAHash.value; }
      gA := FromBinary(value);
      received := value;
    }

    /** Passes exactly if what was received has the hash that was announced, the configuration is good unless that was
        checked before, the modulus has its size and both powers are in range. */
    method RunChecks(skipConfigCheck: bool) returns (result: CheckResult)
      requires Valid() && hasConfig && hasGA
      ensures result == Passed <==> && Announced() && (skipConfigCheck || GoodConfig(env, g, prime))
                                    && Bits(prime) == PRIME_BITS && InRange(prime, gA, gB)
      ensures result == Refused(HashMismatch) <==> !Announced()
      ensures result == Refused(BadConfig) <==> Announced() && !skipConfigCheck && !GoodConfig(env, g, prime)
      ensures result == Refused(OutOfRange) <==> && Announced() && (skipConfigCheck || GoodConfig(env, g, prime))
                                                 && Bits(prime) == PRIME_BITS && !InRange(prime, gA, gB)
      ensures result == Stopped <==> Announced() && skipConfigCheck && Bits(prime) != PRIME_BITS
      ensures result == Passed ==> 1 < gA < prime - 1 && 1 < gB < prime - 1
    {
      hide Bits, InRange, ResidueOk;
      if gAHash.Some? && !okGAHash { return Refused(HashMismatch); }
      if !skipConfigCheck && !GoodConfig(env, g, prime) { return Refused(BadConfig); }
      if Bits(prime) != PRIME_BITS { return Stopped; }
      if !InRange(prime, gA, gB) { return Refused(OutOfRange); }
      InRangeIsSafe(prime, gA, gB);
      result := Passed;
    }

    /** If the other power is one of the generator, the key is the generator to the product of the exponents. */
    method GenKey() returns (id: nat, key: nat)
      requires Valid() && hasConfig && hasGA
      ensures forall a: nat :: gA == ModExp(g, a, prime) ==> key == ModExp(g, a * b, prime)
      ensures key < prime && id == env.keyId(key)
    {
      key := ModExp(gA, b, prime);
      id := env.keyId(key);
      forall a: nat | gA == ModExp(g, a, prime) ensures key == ModExp(g, a * b, prime) {
        SharedPower(g, a, b, prime);
      }
    }
  }

  /** Two ends that use the same configuration and exchange their powers, one of them after announcing its hash, get the
      same key and identifier, and the checks of both have the same result, which is never a hash mismatch. */
  method Exchange(env: Env, g: nat, p: nat, a: nat, b: nat, skip: bool)
    returns (ours: (nat, nat), theirs: (nat, nat), ourResult: CheckResult, theirResult: CheckResult)
    requires p > 0
    ensures ours == theirs && ours.1 == ModExp(g, a * b, p)
    ensures ourResult == theirResult != Refused(HashMismatch)
  {
    hide ModExp, Bits, InRange, GoodConfig, FromBinary, ToBinary;
    var alice := new DhHandshake(env);
    var bob := new DhHandshake(env);
    alice.SetConfig(g, p, a);
    bob.SetConfig(g, p, b);
    alice.SetGAHash(env.hash(ToBinary(bob.gB)));
    alice.SetGA(ToBinary(bob.gB));
    bob.SetGA(ToBinary(alice.gB));
    BinaryRoundTrip(alice.gB);
    BinaryRoundTrip(bob.gB);
    ourResult := alice.RunChecks(skip);
    theirResult := bob.RunChecks(skip);
    InRangeSymmetric(p, alice.gA, alice.gB);
    assert alice.Announced() && bob.Announced();
    SameResult(ourResult, theirResult);
    assert a * b == b * a;
    var id, key := alice.GenKey();
    assert key == ModExp(g, b * a, p);
    ours := (id, key);
    id, key := bob.GenKey();
    assert key == ModExp(g, a * b, p);
    theirs := (id, key);
  }

  lemma SameResult(x: CheckResult, y: CheckResult)
    requires (x == Passed <==> y == Passed) && (x == Stopped <==> y == Stopped)
    requires x == Refused(BadConfig) <==> y == Refused(BadConfig)
    requires x != Refused(HashMismatch) && y != Refused(HashMismatch)
    ensures x == y
  {
    if x.Refused? && y.Refused? {
      assert x.error.BadConfig? || x.error.OutOfRange?;
    }
  }

  lemma InRangeSymmetric(prime: nat, x: nat, y: nat)
    ensures InRange(prime, x, y) <==> InRange(prime, y, x)
  {
    hide Bits;
  }
}
