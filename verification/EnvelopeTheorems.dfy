/** What a reader gets out of a written packet, with whatever bytes framing has put behind it. */
module EnvelopeTheorems {
  import opened Bytes
  import opened Envelope

  /** A written packet: everything that went into it. */
  datatype Written = Written(h: Header, v: Version, x: nat, key: AuthKey, head: seq<byte>, data: seq<byte>,
                             pad: seq<byte>)

  ghost predicate Proper(w: Written)
  {
    && ValidKey(w.key) && w.x <= 8
    && |w.head| == EncryptedHeaderSize(w.h) && PrefixSize(w.h) <= |w.data|
    && (|w.head| + |w.data| + |w.pad|) % 16 == 0
  }

  function PacketBytes(c: Crypto, w: Written): seq<byte>
    requires Sound(c) && Proper(w)
  {
    Sealed(c, w.v, w.x, w.key, w.head, w.data, w.pad)
  }

  /** The bytes of a packet fall into place, and decryption returns what was encrypted, whatever follows the packet. */
  lemma Layout(c: Crypto, w: Written, suffix: seq<byte>)
    requires Sound(c) && Proper(w) && |suffix| < 16
    ensures var msg := PacketBytes(c, w) + suffix;
            && |msg| == RAW_SIZE + |w.head| + |w.data| + |w.pad| + |suffix|
            && FromLE(msg[..8]) == w.key.id
            && msg[8..RAW_SIZE] == SealingOf(c, w.v, w.x, w.key, w.head, w.data, w.pad).messageKey
            && WholeBlocks(msg) == |w.head| + |w.data| + |w.pad|
            && Decrypted(c, w.v, w.x, w.key, msg) == w.head + w.data + w.pad + suffix
  {
    hide SealingOf, AesKey, LE, FromLE, Pow256;
    var mk := SealingOf(c, w.v, w.x, w.key, w.head, w.data, w.pad).messageKey;
    var plain := w.head + w.data + w.pad;
    var cipher := c.encrypt(AesKey(c, w.v, w.key, mk, w.x), plain);
    assert |cipher| == |plain|;
    var msg := PacketBytes(c, w) + suffix;
    assert msg == LE(w.key.id, 8) + (mk + cipher + suffix);
    Widths();
    FieldRoundTrip(w.key.id, 8, mk + cipher + suffix);
    assert msg[8..RAW_SIZE] == mk;
    Blocks(|plain|, |suffix|);
    assert msg[RAW_SIZE..RAW_SIZE + |plain|] == cipher;
    assert msg[RAW_SIZE + |plain|..] == suffix;
  }

  lemma Blocks(n: nat, more: nat)
    requires n % 16 == 0 && more < 16
    ensures (n + more) - (n + more) % 16 == n
  {
  }

  lemma Parts(h: Header, head: seq<byte>, data: seq<byte>, more: seq<byte>)
    requires |head| == EncryptedHeaderSize(h) && PrefixSize(h) <= |data|
    ensures var plain := head + data + more;
            && plain[..|head|] == head && plain[|head|..] == data + more
            && LengthOf(h, plain[|head|..]) == LengthOf(h, data)
            && plain[|head|..][..|data|] == data
            && plain[..|head| + |data|] == head + data
  {
    hide FromLE;
    var plain := head + data + more;
    assert plain[|head|..] == data + more;
    assert (data + more)[PrefixSize(h) - 4..PrefixSize(h)] == data[PrefixSize(h) - 4..PrefixSize(h)];
  }

  /** What reading a version 2 packet gives, for every length field, padding and trailing bytes. */
  lemma Reads2(c: Crypto, w: Written, mod4: bool, suffix: seq<byte>)
    requires Sound(c) && Proper(w) && w.v == V2 && |suffix| < 16
    ensures var tail := w.data + w.pad + suffix;
            var len, size := LengthOf(w.h, w.data), LengthOf(w.h, w.data) + PrefixSize(w.h);
            Read(c, w.h, V2, w.x, w.key, mod4, PacketBytes(c, w) + suffix)
            == if mod4 && len % 4 != 0 then Refused(NotDivisible)
               else if |tail| < size then Refused(TooBig)
               else if |tail| - size < 12 || |tail| - size > 1024 then Refused(BadPadding)
               else Packet(w.head, tail[..size], SealingOf(c, V2, w.x, w.key, w.head, w.data, w.pad).ack)
  {
    hide FromLE, LargeKey, AckOf, Sealed, Decrypted, LengthOf;
    Layout(c, w, suffix);
    var plain := w.head + w.data + w.pad;
    assert plain + suffix == w.head + w.data + (w.pad + suffix);
    Parts(w.h, w.head, w.data, w.pad + suffix);
    assert w.data + (w.pad + suffix) == w.data + w.pad + suffix;
    assert (plain + suffix)[..|plain|] == plain;
  }

  /** What reading a version 1 packet gives: the hash covers as much as the length field says, or everything if that is
      not the exact size, and is compared with that of what was written. */
  lemma Reads1(c: Crypto, w: Written, mod4: bool, suffix: seq<byte>)
    requires Sound(c) && Proper(w) && w.v == V1 && |suffix| < 16
    ensures var tail := w.data + w.pad + suffix;
            var len, size := LengthOf(w.h, w.data), LengthOf(w.h, w.data) + PrefixSize(w.h);
            var bad := LengthBad1(w.h, mod4, |PacketBytes(c, w) + suffix|, len);
            && (bad || size <= |tail|)
            && var hash, written := c.sha1(w.head + if bad then tail else tail[..size]), c.sha1(w.head + w.data);
               && |hash| == |written| == 20
               && Read(c, w.h, V1, w.x, w.key, mod4, PacketBytes(c, w) + suffix)
                  == if hash[4..20] != written[4..20] then Refused(WrongKey)
                     else if bad then Refused(BadLength)
                     else Packet(w.head, tail[..size], AckOf(hash))
  {
    hide FromLE, AckOf, Sealed, Decrypted, LengthOf, LengthBad1, Read;
    Layout(c, w, suffix);
    var tail := w.data + w.pad + suffix;
    TailOf(w, suffix);
    Opens1(c, w, mod4, PacketBytes(c, w) + suffix, tail);
  }

  lemma TailOf(w: Written, suffix: seq<byte>)
    requires Proper(w)
    ensures var tail := w.data + w.pad + suffix;
            w.head + w.data + w.pad + suffix == w.head + tail && LengthOf(w.h, tail) == LengthOf(w.h, w.data)
  {
    hide FromLE, LengthOf;
    assert w.head + w.data + w.pad + suffix == w.head + w.data + (w.pad + suffix);
    assert w.data + w.pad + suffix == w.data + (w.pad + suffix);
    Parts(w.h, w.head, w.data, w.pad + suffix);
  }

  lemma Opens1(c: Crypto, w: Written, mod4: bool, msg: seq<byte>, tail: seq<byte>)
    requires Sound(c) && Proper(w) && w.v == V1 && HeaderSize(w.h) <= |msg| && |tail| >= PrefixSize(w.h)
    requires FromLE(msg[..8]) == w.key.id && Decrypted(c, V1, w.x, w.key, msg) == w.head + tail
    ensures var len, size := LengthOf(w.h, tail), LengthOf(w.h, tail) + PrefixSize(w.h);
            var bad := LengthBad1(w.h, mod4, |msg|, len);
            && (bad || size <= |tail|)
            && var hash := c.sha1(w.head + if bad then tail else tail[..size]);
               && |hash| == 20
               && Read(c, w.h, V1, w.x, w.key, mod4, msg)
                  == if hash[4..20] != msg[8..RAW_SIZE] then Refused(WrongKey)
                     else if bad then Refused(BadLength)
                     else Packet(w.head, tail[..size], AckOf(hash))
  {
    hide FromLE, AckOf, Decrypted, LengthOf, LengthBad1;
    var plain, size := w.head + tail, LengthOf(w.h, tail) + PrefixSize(w.h);
    Cut(w.head, tail, |tail|);
    assert tail[..|tail|] == tail;
    if size <= |tail| { Cut(w.head, tail, size); }
  }

  lemma Cut(head: seq<byte>, tail: seq<byte>, n: nat)
    requires n <= |tail|
    ensures var plain := head + tail;
            plain[..|head|] == head && plain[|head|..] == tail && plain[..|head| + n] == head + tail[..n]
  {
  }

  /** Version 1 demands the exact size; nothing may follow the packet. */
  lemma Exact1(c: Crypto, w: Written, mod4: bool, suffix: seq<byte>)
    requires Sound(c) && Proper(w) && w.v == V1 && |suffix| < 16
    ensures var r := Read(c, w.h, V1, w.x, w.key, mod4, PacketBytes(c, w) + suffix);
            && (r.Packet? ==> !LengthBad1(w.h, mod4, |PacketBytes(c, w) + suffix|, LengthOf(w.h, w.data))
                              && |r.data| == LengthOf(w.h, w.data) + PrefixSize(w.h))
            && (|w.data| == LengthOf(w.h, w.data) + PrefixSize(w.h)
                && !LengthBad1(w.h, mod4, |PacketBytes(c, w) + suffix|, LengthOf(w.h, w.data)) ==>
                  r == Packet(w.head, w.data, SealingOf(c, V1, w.x, w.key, w.head, w.data, w.pad).ack))
  {
    hide FromLE, AckOf, Sealed, LengthOf, LengthBad1, Read;
    Reads1(c, w, mod4, suffix);
    assert w.data + w.pad + suffix == w.data + (w.pad + suffix);
    assert (w.data + w.pad + suffix)[..|w.data|] == w.data;
  }

  /** When a packet with trailing bytes still carries its data to a reader. */
  ghost predicate Legible(w: Written, mod4: bool, suffix: seq<byte>)
    requires PrefixSize(w.h) <= |w.data|
  {
    && LengthOf(w.h, w.data) == |w.data| - PrefixSize(w.h)
    && (mod4 ==> LengthOf(w.h, w.data) % 4 == 0)
    && if w.v.V1? then |w.pad| + |suffix| < 16 && (|w.pad| + |suffix| + |w.head| + |w.data|) % 16 == 0
       else 12 <= |w.pad| + |suffix| <= 1024
  }

  /** The round trip, exactly. */
  lemma RoundTrip(c: Crypto, w: Written, mod4: bool, suffix: seq<byte>)
    requires Sound(c) && Proper(w) && |suffix| < 16
    ensures Read(c, w.h, w.v, w.x, w.key, mod4, PacketBytes(c, w) + suffix)
              == Packet(w.head, w.data, SealingOf(c, w.v, w.x, w.key, w.head, w.data, w.pad).ack)
            <==> Legible(w, mod4, suffix)
  {
    hide FromLE, AckOf, SealingOf, Sealed, Decrypted, Read, LengthOf;
    Layout(c, w, suffix);
    if w.v.V1? {
      Exact1(c, w, mod4, suffix);
    } else {
      Reads2(c, w, mod4, suffix);
      assert w.data + w.pad + suffix == w.data + (w.pad + suffix);
    }
  }

  /** Every packet that the writer pads itself is legible in padded framing if it is of version 2; a version 1 packet
      is legible only in framing without padding. */
  lemma FramedIsLegible(w: Written, how: Padded, mod4: bool, suffix: seq<byte>)
    requires Proper(w) && PaddedFor(how, w.v) && |suffix| < 16
    requires |w.head| + |w.data| + |w.pad| == PaddedPart(w.h, how, |w.data|)
    requires LengthOf(w.h, w.data) == |w.data| - PrefixSize(w.h) && (mod4 ==> LengthOf(w.h, w.data) % 4 == 0)
    ensures Legible(w, mod4, suffix) <==> w.v.V2? || suffix == []
  {
    hide LengthOf, PaddedPart;
    PaddingBounds(w.h, w.v, how, |w.data|);
  }

  /** The two ends of an end-to-end chat use the same part of the key exactly if one of them created it, or the version
      is the first. */
  lemma RolesAgree(writerCreated: bool, readerCreated: bool, v: Version)
    ensures WriterX(writerCreated, v) == ReaderX(readerCreated, v) <==> v == V1 || writerCreated != readerCreated
  {
  }
}
