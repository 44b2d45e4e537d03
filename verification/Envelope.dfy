/** The encrypted envelope of packets: sizes and padding, writing, reading, and the choice of the key part by role.
    Hashes and key derivation are arbitrary functions; the cipher is any bijection on strings of whole blocks. */
module Envelope {
  import opened Bytes

  /** `key` arguments of the cipher stand for the AES key together with the initial vector. */
  datatype Crypto = Crypto(sha1: seq<byte> -> seq<byte>, sha256: seq<byte> -> seq<byte>,
                           kdf: (seq<byte>, seq<byte>, nat) -> seq<byte>,
                           kdf2: (seq<byte>, seq<byte>, nat) -> seq<byte>,
                           encrypt: (seq<byte>, seq<byte>) -> seq<byte>, decrypt: (seq<byte>, seq<byte>) -> seq<byte>)

  ghost predicate Sound(c: Crypto)
  {
    && (forall s :: |c.sha1(s)| == 20)
    && (forall s :: |c.sha256(s)| == 32)
    && (forall k, s :: |s| % 16 == 0 ==> |c.encrypt(k, s)| == |s| && c.decrypt(k, c.encrypt(k, s)) == s)
    && (forall k, s :: |s| % 16 == 0 ==> |c.decrypt(k, s)| == |s|)
  }

  datatype Version = V1 | V2

  /** Packets to a server have a salt and a session identifier in front of the data; end-to-end packets do not. */
  datatype Header = Common | EndToEnd

  datatype AuthKey = AuthKey(id: nat, bytes: seq<byte>)

  predicate ValidKey(key: AuthKey)
  {
    key.id < 0x1_0000_0000_0000_0000 && |key.bytes| == 256
  }

  const RAW_SIZE := 24

  function EncryptedHeaderSize(h: Header): nat { if h.Common? then 16 else 0 }

  function HeaderSize(h: Header): nat { RAW_SIZE + EncryptedHeaderSize(h) }

  /** The data starts with a message identifier, a sequence number and a length, or with a length only. */
  function PrefixSize(h: Header): nat { if h.Common? then 16 else 4 }

  function LengthOf(h: Header, tail: seq<byte>): nat
    requires PrefixSize(h) <= |tail|
  {
    FromLE(tail[PrefixSize(h) - 4..PrefixSize(h)])
  }

  // ---------------------------------------------------------------------------------------------------------
  // Sizes
  // ---------------------------------------------------------------------------------------------------------

  function RoundUp16(n: nat): (r: nat)
    ensures r % 16 == 0 && n <= r < n + 16
  {
    (n + 15) / 16 * 16
  }

  const BUCKETS: seq<nat> := [64, 128, 192, 256, 384, 512, 768, 1024, 1280, 0]

  /** The sizes of encrypted parts that do not use random padding. */
  ghost predicate StandardSize(s: nat)
  {
    s in {64, 128, 192, 256, 384, 512, 768, 1024} || exists k: nat :: s == 1280 + 448 * k
  }

  /** The smallest standard size that leaves room for the rounded data. */
  ghost predicate Smallest(needed: nat, s: nat)
  {
    StandardSize(s) && needed <= s && forall t :: StandardSize(t) && needed <= t ==> s <= t
  }

  function BasicPart(needed: nat): nat
  {
    if needed <= 64 then 64
    else if needed <= 128 then 128
    else if needed <= 192 then 192
    else if needed <= 256 then 256
    else if needed <= 384 then 384
    else if needed <= 512 then 512
    else if needed <= 768 then 768
    else if needed <= 1024 then 1024
    else if needed <= 1280 then 1280
    else (needed - 1280 + 447) / 448 * 448 + 1280
  }

  lemma BasicPartSmallest(needed: nat)
    ensures Smallest(needed, BasicPart(needed))
  {
    var s := BasicPart(needed);
    if needed > 1024 {
      var k: nat := if needed <= 1280 then 0 else (needed - 1280 + 447) / 448;
      assert s == 1280 + 448 * k;
      forall j: nat | needed <= 1280 + 448 * j ensures k <= j {
      }
    }
  }

  /** The size of a whole packet without random padding, found by going through the list of sizes. */
  method BasicSize(dataSize: nat, encSize: nat, rawSize: nat) returns (size: nat)
    ensures size == rawSize + BasicPart(RoundUp16(encSize + dataSize + 12))
    ensures size >= rawSize && Smallest(RoundUp16(encSize + dataSize + 12), size - rawSize)
  {
    var needed := RoundUp16(encSize + dataSize + 12);
    BasicPartSmallest(needed);
    var i := 0;
    while i < |BUCKETS|
      invariant 0 <= i <= |BUCKETS|
      invariant forall j :: 0 <= j < i ==> BUCKETS[j] < needed
    {
      if needed <= BUCKETS[i] {
        assert i > 0 ==> BUCKETS[i - 1] < needed;
        return rawSize + BUCKETS[i];
      }
      i := i + 1;
    }
    assert BUCKETS[8] < needed;
    size := rawSize + ((needed - 1280 + 447) / 448 * 448 + 1280);
  }

  /** How the encrypted part is padded: version 1 to whole blocks; version 2 to a standard size or with up to 255
      extra bytes. */
  datatype Padded = ToBlock | Basic | Rand(extra: nat)

  function PaddedPart(h: Header, how: Padded, dataSize: nat): nat
  {
    match how
    case ToBlock => RoundUp16(EncryptedHeaderSize(h) + dataSize)
    case Basic => BasicPart(RoundUp16(EncryptedHeaderSize(h) + dataSize + 12))
    case Rand(extra) => RoundUp16(EncryptedHeaderSize(h) + dataSize + extra + 12)
  }

  predicate PaddedFor(how: Padded, v: Version)
  {
    match how
    case ToBlock => v == V1
    case Basic => v == V2
    case Rand(extra) => v == V2 && extra <= 255
  }

  /** The encrypted part is whole blocks; version 2 always adds at least 12 bytes, and never so many that the 15 bytes
      that framing may append bring the padding over 1024. */
  lemma PaddingBounds(h: Header, v: Version, how: Padded, dataSize: nat)
    requires PaddedFor(how, v)
    ensures var n, part := EncryptedHeaderSize(h) + dataSize, PaddedPart(h, how, dataSize);
            && part % 16 == 0 && n <= part
            && (v == V1 ==> part - n <= 15)
            && (v == V2 ==> 12 <= part - n <= 474)
  {
    if how.Basic? {
      var needed := RoundUp16(EncryptedHeaderSize(h) + dataSize + 12);
      BasicPartBound(needed);
    }
  }

  lemma BasicPartBound(needed: nat)
    requires needed % 16 == 0
    ensures BasicPart(needed) % 16 == 0
    ensures needed <= BasicPart(needed) && (16 <= needed ==> BasicPart(needed) <= needed + 447)
  {
    if needed > 1280 {
      var k := (needed - 1280 + 447) / 448;
      assert k * 448 == 16 * (28 * k);
      assert BasicPart(needed) == 16 * (28 * k + 80);
    }
  }

  // ---------------------------------------------------------------------------------------------------------
  // Keys
  // ---------------------------------------------------------------------------------------------------------

  function AckOf(hash: seq<byte>): nat
    requires 4 <= |hash|
  {
    var w := FromLE(hash[..4]);
    if w < 0x8000_0000 then w + 0x8000_0000 else w
  }

  function AesKey(c: Crypto, v: Version, key: AuthKey, messageKey: seq<byte>, x: nat): seq<byte>
  {
    if v.V1? then c.kdf(key.bytes, messageKey, x) else c.kdf2(key.bytes, messageKey, x)
  }

  function LargeKey(c: Crypto, key: AuthKey, x: nat, plain: seq<byte>): (hash: seq<byte>)
    requires Sound(c) && ValidKey(key) && x <= 8
    ensures |hash| == 32
  {
    c.sha256(key.bytes[88 + x..120 + x] + plain)
  }

  // ---------------------------------------------------------------------------------------------------------
  // Writing
  // ---------------------------------------------------------------------------------------------------------

  datatype Sealing = Sealing(ack: nat, messageKey: seq<byte>)

  /** Version 1 hashes the header and the data; version 2 also the padding and a part of the authorization key. */
  function SealingOf(c: Crypto, v: Version, x: nat, key: AuthKey, head: seq<byte>, data: seq<byte>,
                     pad: seq<byte>): (s: Sealing)
    requires Sound(c) && ValidKey(key) && x <= 8
    ensures |s.messageKey| == 16
  {
    if v.V1? then
      var hash := c.sha1(head + data);
      assert |hash| == 20;
      Sealing(AckOf(hash), hash[4..20])
    else
      var hash := LargeKey(c, key, x, head + data + pad);
      assert |hash| == 32;
      Sealing(AckOf(hash), hash[8..24])
  }

  /** The message key and the encrypted part. `head` is the encrypted header. */
  function SealedPart(c: Crypto, v: Version, x: nat, key: AuthKey, head: seq<byte>, data: seq<byte>,
                      pad: seq<byte>): seq<byte>
    requires Sound(c) && ValidKey(key) && x <= 8
  {
    var messageKey := SealingOf(c, v, x, key, head, data, pad).messageKey;
    messageKey + c.encrypt(AesKey(c, v, key, messageKey, x), head + data + pad)
  }

  /** The whole packet. */
  function Sealed(c: Crypto, v: Version, x: nat, key: AuthKey, head: seq<byte>, data: seq<byte>,
                  pad: seq<byte>): seq<byte>
    requires Sound(c) && ValidKey(key) && x <= 8
  {
    LE(key.id, 8) + SealedPart(c, v, x, key, head, data, pad)
  }

  /** Writes bytes into a buffer. */
  method Fill(buf: array<byte>, at: nat, bytes: seq<byte>)
    requires at + |bytes| <= buf.Length
    modifies buf
    ensures buf[..] == old(buf[..at]) + bytes + old(buf[at + |bytes|..])
  {
    var i := 0;
    while i < |bytes|
      invariant 0 <= i <= |bytes|
      invariant buf[..] == old(buf[..at]) + bytes[..i] + old(buf[at + i..])
    {
      buf[at + i] := bytes[i];
      i := i + 1;
    }
    assert bytes[..i] == bytes;
  }

  method LayOut(headerSize: nat, data: seq<byte>, pad: seq<byte>, packet: array<byte>)
    requires packet.Length == headerSize + |data| + |pad|
    modifies packet
    ensures packet[..] == old(packet[..headerSize]) + data + pad
  {
    ghost var was := packet[..headerSize];
    Fill(packet, headerSize, data);
    assert packet[..headerSize + |data|] == was + data;
    Fill(packet, headerSize + |data|, pad);
  }

  method WriteCryptoImpl(c: Crypto, h: Header, v: Version, x: nat, data: seq<byte>, key: AuthKey, pad: seq<byte>,
                         packet: array<byte>)
    returns (ack: nat)
    requires Sound(c) && ValidKey(key) && x <= 8
    requires packet.Length == HeaderSize(h) + |data| + |pad|
    requires (EncryptedHeaderSize(h) + |data| + |pad|) % 16 == 0
    modifies packet
    ensures ack == SealingOf(c, v, x, key, old(packet[RAW_SIZE..HeaderSize(h)]), data, pad).ack
    ensures packet[..] == old(packet[..8]) + SealedPart(c, v, x, key, old(packet[RAW_SIZE..HeaderSize(h)]), data, pad)
  {
    hide AesKey, SealingOf, LargeKey;
    ghost var was, head := packet[..], packet[RAW_SIZE..HeaderSize(h)];
    LayOut(HeaderSize(h), data, pad, packet);
    var plain := packet[RAW_SIZE..];
    assert plain == head + data + pad;
    assert packet[RAW_SIZE..HeaderSize(h)] == head;
    var sealing := SealingOf(c, v, x, key, packet[RAW_SIZE..HeaderSize(h)], data, pad);
    ack := sealing.ack;
    Fill(packet, 8, sealing.messageKey);
    assert packet[..] == was[..8] + sealing.messageKey + plain;
    var cipher := c.encrypt(AesKey(c, v, key, sealing.messageKey, x), plain);
    assert |cipher| == |plain|;
    Fill(packet, RAW_SIZE, cipher);
    assert packet[..] == was[..8] + (sealing.messageKey + cipher);
  }

  /** The bytes of random padding. */
  function Noise(noise: nat -> byte, n: nat): (pad: seq<byte>)
    ensures |pad| == n
  {
    seq(n, i requires 0 <= i < n => noise(i))
  }

  function PadOf(h: Header, how: Padded, noise: nat -> byte, dataSize: nat): (pad: seq<byte>)
    requires EncryptedHeaderSize(h) + dataSize <= PaddedPart(h, how, dataSize)
    ensures |pad| == PaddedPart(h, how, dataSize) - EncryptedHeaderSize(h) - dataSize
  {
    Noise(noise, PaddedPart(h, how, dataSize) - EncryptedHeaderSize(h) - dataSize)
  }

  /** A packet of a client to its server. */
  method WriteCrypto(c: Crypto, v: Version, key: AuthKey, salt: nat, session: nat, how: Padded, noise: nat -> byte,
                     data: seq<byte>)
    returns (packet: array<byte>, ack: nat)
    requires Sound(c) && ValidKey(key) && PaddedFor(how, v)
    ensures fresh(packet)
    ensures var head := LE(salt, 8) + LE(session, 8);
            && EncryptedHeaderSize(Common) + |data| <= PaddedPart(Common, how, |data|)
            && packet[..] == Sealed(c, v, 0, key, head, data, PadOf(Common, how, noise, |data|))
            && ack == SealingOf(c, v, 0, key, head, data, PadOf(Common, how, noise, |data|)).ack
  {
    hide LE, SealingOf, SealedPart;
    PaddingBounds(Common, v, how, |data|);
    var pad := PadOf(Common, how, noise, |data|);
    packet := new byte[RAW_SIZE + PaddedPart(Common, how, |data|)];
    Fill(packet, 0, LE(key.id, 8));
    Fill(packet, RAW_SIZE, LE(salt, 8) + LE(session, 8));
    ghost var head := LE(salt, 8) + LE(session, 8);
    assert packet[RAW_SIZE..HeaderSize(Common)] == head && packet[..8] == LE(key.id, 8);
    ack := WriteCryptoImpl(c, Common, v, 0, data, key, pad, packet);
  }

  /** Which part of the key an end-to-end party uses for the packets it writes, and for those it reads. */
  function WriterX(creator: bool, v: Version): nat { if creator || v.V1? then 0 else 8 }

  function ReaderX(creator: bool, v: Version): nat { if creator && !v.V1? then 8 else 0 }

  /** A packet of one end-to-end party to the other. */
  method WriteEndToEnd(c: Crypto, v: Version, key: AuthKey, creator: bool, how: Padded, noise: nat -> byte,
                       data: seq<byte>)
    returns (packet: array<byte>, ack: nat)
    requires Sound(c) && ValidKey(key) && PaddedFor(how, v)
    ensures fresh(packet)
    ensures && |data| <= PaddedPart(EndToEnd, how, |data|)
            && packet[..] == Sealed(c, v, WriterX(creator, v), key, [], data, PadOf(EndToEnd, how, noise, |data|))
            && ack == SealingOf(c, v, WriterX(creator, v), key, [], data, PadOf(EndToEnd, how, noise, |data|)).ack
  {
    hide LE, SealingOf, SealedPart;
    PaddingBounds(EndToEnd, v, how, |data|);
    var pad := PadOf(EndToEnd, how, noise, |data|);
    packet := new byte[RAW_SIZE + PaddedPart(EndToEnd, how, |data|)];
    Fill(packet, 0, LE(key.id, 8));
    assert packet[RAW_SIZE..HeaderSize(EndToEnd)] == [] && packet[..8] == LE(key.id, 8);
    ack := WriteCryptoImpl(c, EndToEnd, v, WriterX(creator, v), data, key, pad, packet);
  }

  // ---------------------------------------------------------------------------------------------------------
  // Reading
  // ---------------------------------------------------------------------------------------------------------

  datatype ReadError = TooSmall | WrongKeyId | TooSmallPart | WrongKey | NotDivisible | TooBig | BadPadding | BadLength

  datatype Outcome = Packet(head: seq<byte>, data: seq<byte>, ack: nat) | Refused(error: ReadError)

  /** The bytes from the encrypted part on, after whole blocks have been decrypted in place. */
  function Decrypted(c: Crypto, v: Version, x: nat, key: AuthKey, msg: seq<byte>): (p: seq<byte>)
    requires Sound(c) && RAW_SIZE <= |msg|
    ensures |p| == |msg| - RAW_SIZE
  {
    var whole := WholeBlocks(msg);
    c.decrypt(AesKey(c, v, key, msg[8..RAW_SIZE], x), msg[RAW_SIZE..RAW_SIZE + whole]) + msg[RAW_SIZE + whole..]
  }

  function WholeBlocks(msg: seq<byte>): (n: nat)
    requires RAW_SIZE <= |msg|
    ensures n % 16 == 0 && n <= |msg| - RAW_SIZE < n + 16
  {
    var n := |msg| - RAW_SIZE;
    n - n % 16
  }

  function Read(c: Crypto, h: Header, v: Version, x: nat, key: AuthKey, mod4: bool, msg: seq<byte>): Outcome
    requires Sound(c) && ValidKey(key) && x <= 8
  {
    if |msg| < HeaderSize(h) then Refused(TooSmall)
    else if FromLE(msg[..8]) != key.id then Refused(WrongKeyId)
    else Opened(c, h, v, x, key, mod4, msg, Decrypted(c, v, x, key, msg))
  }

  /** What is decided after decryption. */
  function Opened(c: Crypto, h: Header, v: Version, x: nat, key: AuthKey, mod4: bool, msg: seq<byte>,
                  plain: seq<byte>): Outcome
    requires Sound(c) && ValidKey(key) && x <= 8
    requires HeaderSize(h) <= |msg| && |plain| == |msg| - RAW_SIZE
  {
    var e := EncryptedHeaderSize(h);
    var tail := plain[e..];
    if |tail| < PrefixSize(h) then Refused(TooSmallPart)
    else
      var len := LengthOf(h, tail);
      var size := len + PrefixSize(h);
      if v.V1? then
        var bad := LengthBad1(h, mod4, |msg|, len);
        var hash := c.sha1(plain[..if bad then |plain| else e + size]);
        assert |hash| == 20;
        if hash[4..20] != msg[8..RAW_SIZE] then Refused(WrongKey)
        else if bad then Refused(BadLength)
        else Packet(plain[..e], tail[..size], AckOf(hash))
      else
        var hash := LargeKey(c, key, x, plain[..WholeBlocks(msg)]);
        assert |hash| == 32;
        if hash[8..24] != msg[8..RAW_SIZE] then Refused(WrongKey)
        else if mod4 && len % 4 != 0 then Refused(NotDivisible)
        else if |tail| < size then Refused(TooBig)
        else if |tail| - size < 12 || |tail| - size > 1024 then Refused(BadPadding)
        else Packet(plain[..e], tail[..size], AckOf(hash))
  }

  predicate LengthBad1(h: Header, mod4: bool, total: nat, len: nat)
    ensures !LengthBad1(h, mod4, total, len) ==> HeaderSize(h) + len + PrefixSize(h) <= total
  {
    (mod4 && len % 4 != 0) || RAW_SIZE + RoundUp16(EncryptedHeaderSize(h) + len + PrefixSize(h)) != total
  }

  /** Compares without an early exit. */
  method SameKey(a: seq<byte>, b: seq<byte>) returns (same: bool)
    requires |a| == |b|
    ensures same <==> a == b
  {
    var bad := 0;
    var i := 0;
    while i < |a|
      invariant 0 <= i <= |a|
      invariant bad == 0 <==> a[..i] == b[..i]
    {
      assert a[..i + 1] == a[..i] + [a[i]] && b[..i + 1] == b[..i] + [b[i]];
      bad := if a[i] != b[i] then 1 else bad;
      i := i + 1;
    }
    assert a[..i] == a && b[..i] == b;
    same := bad == 0;
  }

  method ReadCryptoImpl(c: Crypto, h: Header, v: Version, x: nat, message: array<byte>, key: AuthKey, mod4: bool)
    returns (r: Outcome)
    requires Sound(c) && ValidKey(key) && x <= 8
    modifies message
    ensures r == Read(c, h, v, x, key, mod4, old(message[..]))
    ensures r.Packet? ==> message[RAW_SIZE..] == Decrypted(c, v, x, key, old(message[..]))
                          && message[..RAW_SIZE] == old(message[..RAW_SIZE])
  {
    hide FromLE, AesKey, LargeKey, AckOf, LengthBad1;
    if message.Length < HeaderSize(h) { return Refused(TooSmall); }
    ghost var msg := message[..];
    assert message[..8] == msg[..8];
    if FromLE(message[..8]) != key.id { return Refused(WrongKeyId); }
    DecryptInPlace(c, v, x, key, message);
    hide Decrypted;
    assert message[..][RAW_SIZE..] == message[RAW_SIZE..];
    r := Decide(c, h, v, x, key, mod4, message[..], msg);
  }

  /** Decrypts the whole blocks after the message key. */
  method DecryptInPlace(c: Crypto, v: Version, x: nat, key: AuthKey, message: array<byte>)
    requires Sound(c) && ValidKey(key) && x <= 8 && RAW_SIZE <= message.Length
    modifies message
    ensures message[RAW_SIZE..] == Decrypted(c, v, x, key, old(message[..]))
    ensures message[..RAW_SIZE] == old(message[..RAW_SIZE])
  {
    hide AesKey;
    ghost var msg := message[..];
    var whole := message.Length - RAW_SIZE - (message.Length - RAW_SIZE) % 16;
    var messageKey := message[8..RAW_SIZE];
    var deciphered := c.decrypt(AesKey(c, v, key, messageKey, x), message[RAW_SIZE..RAW_SIZE + whole]);
    assert messageKey == msg[8..RAW_SIZE] && message[RAW_SIZE..RAW_SIZE + whole] == msg[RAW_SIZE..RAW_SIZE + whole];
    assert |deciphered| == whole;
    Fill(message, RAW_SIZE, deciphered);
    hide Sound;
    assert message[..] == msg[..RAW_SIZE] + deciphered + msg[RAW_SIZE + whole..];
  }

  /** The checks on the decrypted buffer. */
  method Decide(c: Crypto, h: Header, v: Version, x: nat, key: AuthKey, mod4: bool, message: seq<byte>,
                ghost msg: seq<byte>)
    returns (r: Outcome)
    requires Sound(c) && ValidKey(key) && x <= 8
    requires HeaderSize(h) <= |msg| == |message| && msg[..RAW_SIZE] == message[..RAW_SIZE]
    ensures r == Opened(c, h, v, x, key, mod4, msg, message[RAW_SIZE..])
  {
    hide FromLE, LargeKey, AckOf;
    var e := EncryptedHeaderSize(h);
    var tail := message[HeaderSize(h)..];
    assert message[RAW_SIZE..][e..] == tail;
    if |tail| < PrefixSize(h) { return Refused(TooSmallPart); }
    var len := LengthOf(h, tail);
    var size := len + PrefixSize(h);
    var lengthBad := false;
    var found: seq<byte>;
    var ack: nat;
    if v.V1? {
      lengthBad := LengthBad1(h, mod4, |message|, len);
      var hash := c.sha1(message[RAW_SIZE..][..if lengthBad then e + |tail| else e + size]);
      assert |hash| == 20;
      found, ack := hash[4..20], AckOf(hash);
    } else {
      var hash := LargeKey(c, key, x, message[RAW_SIZE..][..WholeBlocks(message)]);
      assert |hash| == 32;
      found, ack := hash[8..24], AckOf(hash);
    }
    assert message[8..RAW_SIZE] == msg[8..RAW_SIZE] by {
      assert message[8..RAW_SIZE] == message[..RAW_SIZE][8..] && msg[8..RAW_SIZE] == msg[..RAW_SIZE][8..];
    }
    var same := SameKey(found, message[8..RAW_SIZE]);
    if !same { return Refused(WrongKey); }
    if v.V2? {
      if mod4 && len % 4 != 0 { return Refused(NotDivisible); }
      if |tail| < size { return Refused(TooBig); }
      var padSize := |tail| - size;
      if padSize < 12 || padSize > 1024 { return Refused(BadPadding); }
    } else if lengthBad {
      return Refused(BadLength);
    }
    r := Packet(message[RAW_SIZE..][..e], tail[..size], ack);
  }
}
