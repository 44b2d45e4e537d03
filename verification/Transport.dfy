/** Reading any message that arrives, and the whole way of a packet. */
module Transport {
  import opened Bytes
  import opened Streaming
  import opened Framing
  import opened Envelope
  import opened EnvelopeTheorems

  datatype Info = Info(header: Header, v: Version, creator: bool, mod4: bool)

  datatype ReadResult = Nop | Ack(token: nat) | ErrorCode(code: int) | Data(data: seq<byte>)
                      | Error(why: TransportError)

  datatype TransportError = TooShort | EmptyKey | Envelope(error: ReadError)

  function AsInt32(word: nat): int
  {
    if word < 0x8000_0000 then word else word - 0x1_0000_0000
  }

  function FromOutcome(r: Outcome): ReadResult
  {
    match r
    case Packet(_, data, _) => Data(data)
    case Refused(error) => Error(TransportError.Envelope(error))
  }

  /** A connection without a key reads only short messages and unencrypted ones. */
  function ReadMessage(c: Crypto, key: AuthKey, info: Info, msg: seq<byte>): ReadResult
    requires Sound(c) && (ValidKey(key) || (key.bytes == [] && info.header.Common?))
  {
    if |msg| < 16 then
      if |msg| < 4 then Error(TooShort)
      else
        var code := AsInt32(FromLE(msg[..4]));
        if code == 0 then Nop
        else if code == -1 && |msg| >= 8 then Ack(FromLE(msg[4..8]))
        else ErrorCode(code)
    else if info.header.EndToEnd? then
      FromOutcome(Read(c, EndToEnd, info.v, ReaderX(info.creator, info.v), key, info.mod4, msg))
    else if FromLE(msg[..8]) == 0 then Data(msg[8..])
    else if key.bytes == [] then Error(EmptyKey)
    else FromOutcome(Read(c, Common, info.v, 8, key, info.mod4, msg))
  }

  function WriteNoCrypto(data: seq<byte>): seq<byte>
  {
    LE(0, 8) + data
  }

  /** An unencrypted message comes back, together with the bytes framing appended, exactly if there are at least eight
      bytes of data and padding; a shorter one is taken for a message that says nothing. */
  lemma NoCryptoRoundTrip(c: Crypto, key: AuthKey, info: Info, data: seq<byte>, pad: seq<byte>)
    requires Sound(c) && (ValidKey(key) || key.bytes == []) && info.header.Common?
    ensures ReadMessage(c, key, info, WriteNoCrypto(data) + pad)
            == if 8 <= |data| + |pad| then Data(data + pad) else Nop
  {
    hide LE, FromLE, Read;
    var msg := WriteNoCrypto(data) + pad;
    assert msg == LE(0, 8) + (data + pad);
    Widths();
    FieldRoundTrip(0, 8, data + pad);
    assert msg[..4] == LE(0, 8)[..4];
    ZeroStart();
  }

  lemma ZeroStart()
    ensures FromLE(LE(0, 8)[..4]) == 0
  {
    assert LE(0, 8)[..4] == LE(0, 4) by {
      assert LE(0, 8) == [0] + LE(0, 7);
      assert LE(0, 7) == [0] + LE(0, 6);
      assert LE(0, 6) == [0] + LE(0, 5);
      assert LE(0, 5) == [0] + LE(0, 4);
      assert LE(0, 4) == [0, 0, 0, 0];
    }
    FromLEInverse(0, 4);
  }

  /** The other end of a connection writes with the second part of the key what this end reads with it; the other
      party of an end-to-end chat has the opposite role. */
  ghost predicate ForReader(w: Written, info: Info)
  {
    && w.h == info.header && w.v == info.v
    && (w.h.Common? ==> w.x == 8 && w.key.id != 0)
    && (w.h.EndToEnd? ==> w.x == WriterX(!info.creator, w.v))
  }

  /** An encrypted message of any size comes back exactly if it is legible. */
  lemma MessageRoundTrip(c: Crypto, w: Written, info: Info, suffix: seq<byte>)
    requires Sound(c) && Proper(w) && ForReader(w, info) && |suffix| < 16
    ensures ReadMessage(c, w.key, info, PacketBytes(c, w) + suffix) == Data(w.data) <==> Legible(w, info.mod4, suffix)
  {
    hide Read, FromLE, SealingOf, Sealed, Decrypted, LengthOf;
    Layout(c, w, suffix);
    RoundTrip(c, w, info.mod4, suffix);
    DataDecides(c, w, info.mod4, suffix);
    RolesAgree(!info.creator, info.creator, w.v);
  }

  /** The data alone decides: no packet is read as the right data with anything else wrong. */
  lemma DataDecides(c: Crypto, w: Written, mod4: bool, suffix: seq<byte>)
    requires Sound(c) && Proper(w) && |suffix| < 16
    ensures var r := Read(c, w.h, w.v, w.x, w.key, mod4, PacketBytes(c, w) + suffix);
            r.Packet? && r.data == w.data ==> Legible(w, mod4, suffix)
  {
    hide Read, FromLE, SealingOf, Sealed, Decrypted, LengthOf;
    Layout(c, w, suffix);
    if w.v.V1? {
      Exact1(c, w, mod4, suffix);
    } else {
      Reads2(c, w, mod4, suffix);
      assert |w.data + w.pad + suffix| == |w.data| + |w.pad| + |suffix|;
    }
  }

  // ---------------------------------------------------------------------------------------------------------
  // Through the stack
  // ---------------------------------------------------------------------------------------------------------

  /** A packet, how it was padded, and the bytes framing appended. */
  datatype Sent = Sent(w: Written, how: Padded, pad: seq<byte>)

  /** A packet of version 2 as the writer makes it, with a true length field. */
  ghost predicate Regular(c: Crypto, s: Sent, info: Info)
    requires Sound(c)
  {
    && Proper(s.w) && ForReader(s.w, info) && s.w.v == V2 && PaddedFor(s.how, V2)
    && |s.w.head| + |s.w.data| + |s.w.pad| == PaddedPart(s.w.h, s.how, |s.w.data|)
    && LengthOf(s.w.h, s.w.data) == |s.w.data| - PrefixSize(s.w.h)
    && (info.mod4 ==> LengthOf(s.w.h, s.w.data) % 4 == 0)
    && |s.pad| < 16 && |PacketBytes(c, s.w)| < 0x100_0000
  }

  lemma Packs(c: Crypto, s: Sent, info: Info)
    requires Sound(c) && Regular(c, s, info)
    ensures Writable(Outgoing(PacketBytes(c, s.w), false, s.pad))
    ensures ReadMessage(c, s.w.key, info, PacketBytes(c, s.w) + s.pad) == Data(s.w.data)
  {
    hide ReadMessage, Sealed, LengthOf, PaddedPart;
    Layout(c, s.w, []);
    assert PacketBytes(c, s.w) + [] == PacketBytes(c, s.w);
    FramedIsLegible(s.w, s.how, info.mod4, s.pad);
    MessageRoundTrip(c, s.w, info, s.pad);
  }

  ghost predicate AllRegular(c: Crypto, ss: seq<Sent>, info: Info)
    requires Sound(c)
  {
    forall i :: 0 <= i < |ss| ==> Regular(c, ss[i], info)
  }

  ghost function ToSend(c: Crypto, ss: seq<Sent>, info: Info): (os: seq<Outgoing>)
    requires Sound(c) && AllRegular(c, ss, info)
    ensures |os| == |ss| && AllWritable(os) && NoQuickAcks(os)
    ensures forall i :: 0 <= i < |ss| ==> os[i] == Outgoing(PacketBytes(c, ss[i].w), false, ss[i].pad)
  {
    hide Sealed;
    var os := seq(|ss|, i requires 0 <= i < |ss| => Outgoing(PacketBytes(c, ss[i].w), false, ss[i].pad));
    assert AllWritable(os) by {
      forall i | 0 <= i < |ss| ensures Writable(os[i]) { Packs(c, ss[i], info); }
    }
    os
  }

  /** The item that is read for one packet. */
  ghost predicate Arrived(c: Crypto, s: Sent, info: Info, frame: Frame)
    requires Sound(c) && Proper(s.w)
  {
    frame.Message? && ReadMessage(c, s.w.key, info, frame.bytes) == Data(s.w.data)
  }

  /** Packets that were encrypted with either size function, framed with any padding, and arrive in any pieces are all
      read, in order, with the data they were given. */
  lemma StackRoundTrip(c: Crypto, ss: seq<Sent>, info: Info, chunks: seq<seq<byte>>)
    requires Sound(c) && AllRegular(c, ss, info)
    ensures Stable(FrameStep)
    ensures Join(chunks) == Join(Frames(ToSend(c, ss, info))) ==>
              var got := FeedAll(FrameStep, chunks);
              && |got.items| == |ss| && got.rest == [] && !got.failed
              && forall i :: 0 <= i < |ss| ==> Regular(c, ss[i], info) && Arrived(c, ss[i], info, got.items[i])
  {
    hide ReadMessage, Sealed, LengthOf, PaddedPart, FrameOf;
    forall i | 0 <= i < |ss|
      ensures ReadMessage(c, ss[i].w.key, info, PacketBytes(c, ss[i].w) + ss[i].pad) == Data(ss[i].w.data)
    {
      Packs(c, ss[i], info);
    }
    FrameStable();
    if Join(chunks) == Join(Frames(ToSend(c, ss, info))) { FramesSurvive(ToSend(c, ss, info), chunks); }
  }
}
