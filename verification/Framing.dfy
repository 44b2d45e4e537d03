/** The framing of packets on a TCP stream: length-prefixed frames, a stream cipher, and records that look like TLS. */
module Framing {
  import opened Bytes
  import opened Streaming

  const MAX_TLS_PACKET_LENGTH := 2878

  // ---------------------------------------------------------------------------------------------------------
  // Frames
  // ---------------------------------------------------------------------------------------------------------

  datatype Frame = Message(bytes: seq<byte>) | QuickAck(token: nat)

  /** One frame, or the number of bytes to wait for. */
  function FrameStep(s: seq<byte>): Step<Frame>
  {
    if |s| < 4 then More(4)
    else
      var size := FromLE(s[..4]);
      if size >= 0x8000_0000 then Item(QuickAck(size), 4)
      else if |s| < size + 4 then More(size + 4)
      else Item(Message(s[4..size + 4]), size + 4)
  }

  lemma FrameStable()
    ensures Stable(FrameStep) && FrameStep([]).More?
  {
    hide FromLE;
    forall s: seq<byte>, t: seq<byte>
      ensures StableAt(FrameStep, s, t)
    {
      if 4 <= |s| {
        assert (s + t)[..4] == s[..4];
        var size := FromLE(s[..4]);
        if size + 4 <= |s| { assert (s + t)[4..size + 4] == s[4..size + 4]; }
      }
    }
  }

  /** A packet to be written, with the bytes that padded framing appends. */
  datatype Outgoing = Outgoing(packet: seq<byte>, quickAck: bool, pad: seq<byte>)

  predicate Writable(o: Outgoing)
  {
    |o.packet| % 4 == 0 && |o.packet| < 0x100_0000 && |o.pad| < 16
  }

  function FrameOf(o: Outgoing): (f: seq<byte>)
    requires Writable(o)
    ensures |f| == 4 + |o.packet| + |o.pad|
  {
    LE((if o.quickAck then 0x8000_0000 else 0) + |o.packet| + |o.pad|, 4) + o.packet + o.pad
  }

  /** A frame written without a request for a quick acknowledgement is read back with its padding. */
  lemma FrameRoundTrip(o: Outgoing)
    requires Writable(o) && !o.quickAck
    ensures FrameStep(FrameOf(o)) == Item(Message(o.packet + o.pad), |FrameOf(o)|)
  {
    hide LE, FromLE;
    Widths();
    var body := o.packet + o.pad;
    assert FrameOf(o) == LE(|body|, 4) + body;
    FieldRoundTrip(|body|, 4, body);
    assert FrameOf(o)[4..|body| + 4] == body;
  }

  /** A request for a quick acknowledgement sets the top bit of the length and nothing else. */
  lemma QuickAckMarked(o: Outgoing)
    requires Writable(o) && o.quickAck
    ensures FrameStep(FrameOf(o)) == Item(QuickAck(0x8000_0000 + |o.packet| + |o.pad|), 4)
    ensures FrameOf(o)[4..] == FrameOf(o.(quickAck := false))[4..]
  {
    hide LE, FromLE;
    Widths();
    var body := o.packet + o.pad;
    assert FrameOf(o) == LE(0x8000_0000 + |body|, 4) + body;
    FieldRoundTrip(0x8000_0000 + |body|, 4, body);
    assert FrameOf(o)[4..] == body && FrameOf(o.(quickAck := false))[4..] == body;
  }

  ghost function Frames(os: seq<Outgoing>): (fs: seq<seq<byte>>)
    requires forall i :: 0 <= i < |os| ==> Writable(os[i])
    ensures |fs| == |os| && forall i :: 0 <= i < |os| ==> fs[i] == FrameOf(os[i])
  {
    seq(|os|, i requires 0 <= i < |os| => FrameOf(os[i]))
  }

  ghost function Payloads(os: seq<Outgoing>): (ms: seq<Frame>)
    ensures |ms| == |os| && forall i :: 0 <= i < |os| ==> ms[i] == Message(os[i].packet + os[i].pad)
  {
    seq(|os|, i requires 0 <= i < |os| => Message(os[i].packet + os[i].pad))
  }

  ghost predicate AllWritable(os: seq<Outgoing>)
  {
    forall i :: 0 <= i < |os| ==> Writable(os[i])
  }

  ghost predicate NoQuickAcks(os: seq<Outgoing>)
  {
    forall i :: 0 <= i < |os| ==> !os[i].quickAck
  }

  /** Whatever pieces a stream of frames arrives in, exactly the packets that were written are read, in order. */
  lemma FramesSurvive(os: seq<Outgoing>, chunks: seq<seq<byte>>)
    requires AllWritable(os) && NoQuickAcks(os) && Join(chunks) == Join(Frames(os))
    ensures Stable(FrameStep) && FeedAll(FrameStep, chunks) == Progress(Payloads(os), [], false)
  {
    hide FrameStep, FrameOf;
    FrameStable();
    ChunkIndependent(FrameStep, chunks);
    forall i | 0 <= i < |os| ensures FrameStep(Frames(os)[i]) == Item(Payloads(os)[i], |Frames(os)[i]|) {
      FrameRoundTrip(os[i]);
    }
    DrainItems(FrameStep, Frames(os), Payloads(os));
  }

  // ---------------------------------------------------------------------------------------------------------
  // The stream cipher
  // ---------------------------------------------------------------------------------------------------------

  /** Counter mode: the byte at position `at + i` of the stream is combined with that byte of the key stream. */
  function Ctr(keyStream: nat -> byte, at: nat, s: seq<byte>): (r: seq<byte>)
    ensures |r| == |s|
  {
    seq(|s|, i requires 0 <= i < |s| => XorByte(s[i], keyStream(at + i)))
  }

  lemma CtrTwice(keyStream: nat -> byte, at: nat, s: seq<byte>)
    ensures Ctr(keyStream, at, Ctr(keyStream, at, s)) == s
  {
    var once := Ctr(keyStream, at, s);
    forall i | 0 <= i < |s| ensures Ctr(keyStream, at, once)[i] == s[i] {
      XorTwice(s[i], keyStream(at + i));
      assert once[i] == XorByte(s[i], keyStream(at + i));
    }
  }

  lemma CtrSplit(keyStream: nat -> byte, at: nat, s: seq<byte>, t: seq<byte>)
    ensures Ctr(keyStream, at, s + t) == Ctr(keyStream, at, s) + Ctr(keyStream, at + |s|, t)
  {
    hide XorByte;
    var l, r := Ctr(keyStream, at, s + t), Ctr(keyStream, at, s) + Ctr(keyStream, at + |s|, t);
    forall i | 0 <= i < |l| ensures l[i] == r[i] {
      if i >= |s| { assert at + |s| + (i - |s|) == at + i; }
    }
  }

  // ---------------------------------------------------------------------------------------------------------
  // Records
  // ---------------------------------------------------------------------------------------------------------

  const RECORD_START: seq<byte> := [0x17, 0x03, 0x03]
  const FIRST_PREFIX: seq<byte> := [0x14, 0x03, 0x03, 0x00, 0x01, 0x01]

  /** The two-byte length, most significant byte first. */
  function BE(hi: int, lo: int): int { hi * 256 + lo }

  function RecordStep(s: seq<byte>): Step<seq<byte>>
  {
    if |s| < 5 then More(5)
    else if s[..3] != RECORD_START then Bad
    else
      var len: int := BE(s[3], s[4]);
      if |s| - 5 < len then More(5 + len) else Item(s[5..5 + len], 5 + len)
  }

  lemma RecordStable()
    ensures Stable(RecordStep) && RecordStep([]).More?
  {
    forall s: seq<byte>, t: seq<byte>
      ensures StableAt(RecordStep, s, t)
    {
      if 5 <= |s| {
        assert (s + t)[..3] == s[..3];
        var len: int := BE(s[3], s[4]);
        if 5 + len <= |s| { assert (s + t)[5..5 + len] == s[5..5 + len]; }
      }
    }
  }

  function RecordOf(body: seq<byte>): seq<byte>
    requires |body| < 0x1_0000
  {
    RECORD_START + [|body| / 256 % 256, |body| % 256] + body
  }

  lemma RecordRoundTrip(body: seq<byte>)
    requires |body| < 0x1_0000
    ensures RecordStep(RecordOf(body)) == Item(body, |RecordOf(body)|)
  {
    var r := RecordOf(body);
    assert r[..3] == RECORD_START && r[5..] == body;
    assert r[3] == |body| / 256 && r[4] == |body| % 256;
    assert BE(r[3], r[4]) == |body| && r[5..5 + |body|] == body;
  }

  // ---------------------------------------------------------------------------------------------------------
  // Writing records
  // ---------------------------------------------------------------------------------------------------------

  /** The writing end: the connection header until it has been sent, whether the first record is still to come, the
      position in the key stream, and what has been put on the wire. */
  datatype Wire = Wire(header: seq<byte>, first: bool, position: nat, output: seq<byte>)

  function PutRecord(w: Wire, chunk: seq<byte>): Wire
    requires |w.header| + |chunk| <= MAX_TLS_PACKET_LENGTH
  {
    Wire([], false, w.position, w.output + (if w.first then FIRST_PREFIX else []) + RecordOf(w.header + chunk))
  }

  function PutPieces(w: Wire, rest: seq<byte>): (w': Wire)
    requires |w.header| <= MAX_TLS_PACKET_LENGTH
    ensures |w'.header| <= |w.header|
    decreases |rest|, |w.header|
  {
    if rest == [] then w
    else
      var n := MAX_TLS_PACKET_LENGTH - |w.header|;
      var piece := if |rest| < n then rest else rest[..n];
      PutPieces(PutRecord(w, piece), rest[|piece|..])
  }

  /** A message goes into one record, or into several if it is too long. */
  function PutTls(w: Wire, message: seq<byte>): Wire
    requires |w.header| <= MAX_TLS_PACKET_LENGTH
  {
    if |message| + |w.header| > MAX_TLS_PACKET_LENGTH then PutPieces(w, message) else PutRecord(w, message)
  }

  function PutPlain(w: Wire, message: seq<byte>): Wire
  {
    w.(header := [], output := w.output + w.header + message)
  }

  function Put(w: Wire, tls: bool, message: seq<byte>): (w': Wire)
    requires |w.header| <= MAX_TLS_PACKET_LENGTH
    ensures |w'.header| <= |w.header|
  {
    if tls then PutTls(w, message) else PutPlain(w, message)
  }

  /** Frames, encrypts and sends. */
  function Send(w: Wire, tls: bool, keyStream: nat -> byte, o: Outgoing): Wire
    requires Writable(o) && |w.header| <= MAX_TLS_PACKET_LENGTH
  {
    var frame := FrameOf(o);
    Put(w.(position := w.position + |frame|), tls, Ctr(keyStream, w.position, frame))
  }

  ghost function SendAll(w: Wire, tls: bool, keyStream: nat -> byte, os: seq<Outgoing>): (w': Wire)
    requires AllWritable(os) && |w.header| <= MAX_TLS_PACKET_LENGTH
    ensures |w'.header| <= |w.header|
  {
    if os == [] then w else Send(SendAll(w, tls, keyStream, os[..|os| - 1]), tls, keyStream, os[|os| - 1])
  }

  // ---------------------------------------------------------------------------------------------------------
  // What is on the wire
  // ---------------------------------------------------------------------------------------------------------

  ghost predicate Bounded(bodies: seq<seq<byte>>)
  {
    forall i :: 0 <= i < |bodies| ==> |bodies[i]| <= MAX_TLS_PACKET_LENGTH
  }

  ghost function Records(bodies: seq<seq<byte>>): (rs: seq<seq<byte>>)
    requires Bounded(bodies)
    ensures |rs| == |bodies| && forall i :: 0 <= i < |bodies| ==> rs[i] == RecordOf(bodies[i])
  {
    seq(|bodies|, i requires 0 <= i < |bodies| => RecordOf(bodies[i]))
  }

  /** The output is the one-time prefix and records whose bodies make up the connection header and `sent`; as long as
      nothing has been sent the header is waiting. */
  ghost predicate Carries(w: Wire, header: seq<byte>, bodies: seq<seq<byte>>, sent: seq<byte>)
  {
    && Bounded(bodies)
    && if w.first then w.header == header && w.output == [] && bodies == [] && sent == []
       else w.header == [] && w.output == FIRST_PREFIX + Join(Records(bodies)) && Join(bodies) == header + sent
  }

  lemma PutRecordCarries(w: Wire, header: seq<byte>, bodies: seq<seq<byte>>, sent: seq<byte>, chunk: seq<byte>)
    requires Carries(w, header, bodies, sent) && |w.header| + |chunk| <= MAX_TLS_PACKET_LENGTH
    ensures Carries(PutRecord(w, chunk), header, bodies + [w.header + chunk], sent + chunk)
  {
    hide RecordOf;
    var body := w.header + chunk;
    JoinLast(bodies, body);
    JoinLast(Records(bodies), RecordOf(body));
    assert Records(bodies + [body]) == Records(bodies) + [RecordOf(body)];
    var w' := PutRecord(w, chunk);
    if w.first {
      assert Records(bodies) == [] && Join(Records(bodies)) == [];
      assert w'.output == FIRST_PREFIX + RecordOf(body);
      assert Join(bodies) == [] && sent + chunk == chunk;
    } else {
      assert body == chunk;
      assert FIRST_PREFIX + Join(Records(bodies)) + RecordOf(body)
             == FIRST_PREFIX + (Join(Records(bodies)) + RecordOf(body));
      assert header + sent + chunk == header + (sent + chunk);
    }
  }

  lemma {:induction false} PutPiecesCarries(w: Wire, header: seq<byte>, bodies: seq<seq<byte>>, sent: seq<byte>,
                                            rest: seq<byte>)
    returns (bodies': seq<seq<byte>>)
    requires Carries(w, header, bodies, sent) && |w.header| <= MAX_TLS_PACKET_LENGTH
    ensures Carries(PutPieces(w, rest), header, bodies', sent + rest)
    decreases |rest|, |w.header|
  {
    if rest == [] {
      bodies' := bodies;
      assert sent + rest == sent;
    } else {
      var n := MAX_TLS_PACKET_LENGTH - |w.header|;
      var piece := if |rest| < n then rest else rest[..n];
      hide Carries, PutRecord;
      PutRecordCarries(w, header, bodies, sent, piece);
      PutRecordClears(w, piece);
      bodies' := PutPiecesCarries(PutRecord(w, piece), header, bodies + [w.header + piece], sent + piece,
                                  rest[|piece|..]);
      assert sent + piece + rest[|piece|..] == sent + rest;
    }
  }

  lemma PutRecordClears(w: Wire, chunk: seq<byte>)
    requires |w.header| + |chunk| <= MAX_TLS_PACKET_LENGTH
    ensures PutRecord(w, chunk).header == []
  {
  }

  lemma PutTlsCarries(w: Wire, header: seq<byte>, bodies: seq<seq<byte>>, sent: seq<byte>, message: seq<byte>)
    returns (bodies': seq<seq<byte>>)
    requires Carries(w, header, bodies, sent) && |w.header| <= MAX_TLS_PACKET_LENGTH
    ensures Carries(PutTls(w, message), header, bodies', sent + message)
  {
    hide Carries, PutRecord, PutPieces;
    if |message| + |w.header| > MAX_TLS_PACKET_LENGTH {
      bodies' := PutPiecesCarries(w, header, bodies, sent, message);
    } else {
      PutRecordCarries(w, header, bodies, sent, message);
      bodies' := bodies + [w.header + message];
    }
  }

  lemma {:induction false} PutPiecesMoves(w: Wire, rest: seq<byte>)
    requires |w.header| <= MAX_TLS_PACKET_LENGTH
    ensures PutPieces(w, rest).position == w.position
    decreases |rest|, |w.header|
  {
    if rest != [] {
      var n := MAX_TLS_PACKET_LENGTH - |w.header|;
      var piece := if |rest| < n then rest else rest[..n];
      PutPiecesMoves(PutRecord(w, piece), rest[|piece|..]);
    }
  }

  /** Whatever is sent, the bodies of the records are the header followed by the encrypted frames. */
  lemma {:induction false} SendAllCarries(header: seq<byte>, at: nat, keyStream: nat -> byte, os: seq<Outgoing>)
    returns (bodies: seq<seq<byte>>)
    requires AllWritable(os) && |header| <= MAX_TLS_PACKET_LENGTH
    ensures var w := SendAll(Wire(header, true, at, []), true, keyStream, os);
            && w.position == at + |Join(Frames(os))|
            && Carries(w, header, bodies, Ctr(keyStream, at, Join(Frames(os))))
  {
    var start := Wire(header, true, at, []);
    if os == [] {
      bodies := [];
      assert Join(Frames(os)) == [];
    } else {
      hide Send, Carries, Ctr, FrameOf, Join, SendAll, Frames;
      var before, o := os[..|os| - 1], os[|os| - 1];
      bodies := SendAllCarries(header, at, keyStream, before);
      LastSent(start, true, keyStream, os);
      bodies := SendCarries(SendAll(start, true, keyStream, before), header, bodies, at, keyStream,
                            Join(Frames(before)), o);
    }
  }

  lemma SendCarries(w: Wire, header: seq<byte>, bodies: seq<seq<byte>>, at: nat, keyStream: nat -> byte,
                    stream: seq<byte>, o: Outgoing)
    returns (bodies': seq<seq<byte>>)
    requires Writable(o) && |w.header| <= MAX_TLS_PACKET_LENGTH
    requires w.position == at + |stream| && Carries(w, header, bodies, Ctr(keyStream, at, stream))
    ensures var w' := Send(w, true, keyStream, o);
            && w'.position == at + |stream + FrameOf(o)|
            && Carries(w', header, bodies', Ctr(keyStream, at, stream + FrameOf(o)))
  {
    hide FrameOf, Ctr, PutPieces;
    var frame := FrameOf(o);
    CtrSplit(keyStream, at, stream, frame);
    var moved := w.(position := w.position + |frame|);
    var message := Ctr(keyStream, w.position, frame);
    PutPiecesMoves(moved, message);
    assert Carries(moved, header, bodies, Ctr(keyStream, at, stream));
    hide Carries;
    bodies' := PutTlsCarries(moved, header, bodies, Ctr(keyStream, at, stream), message);
  }

  /** The whole way: packets that were framed, encrypted and cut into records, arriving in any pieces after the one-time
      prefix, come out as records of at most 2878 bytes whose bodies are the connection header and a stream that
      decrypts to exactly those packets, in order. */
  lemma Transmission(header: seq<byte>, at: nat, keyStream: nat -> byte, os: seq<Outgoing>, chunks: seq<seq<byte>>)
    requires AllWritable(os) && NoQuickAcks(os) && os != [] && |header| <= MAX_TLS_PACKET_LENGTH
    requires SendAll(Wire(header, true, at, []), true, keyStream, os).output == FIRST_PREFIX + Join(chunks)
    ensures Stable(RecordStep) && Stable(FrameStep)
    ensures var got := FeedAll(RecordStep, chunks);
            && !got.failed && got.rest == [] && Bounded(got.items)
            && var stream := Join(got.items);
               && |header| <= |stream| && stream[..|header|] == header
               && Drain(FrameStep, Ctr(keyStream, at, stream[|header|..])) == Progress(Payloads(os), [], false)
  {
    hide RecordStep, FrameStep, FrameOf, Ctr, RecordOf;
    RecordStable();
    FrameStable();
    var bodies := SendAllCarries(header, at, keyStream, os);
    var w := SendAll(Wire(header, true, at, []), true, keyStream, os);
    assert |w.output| >= 6;
    assert Join(chunks) == w.output[6..] == Join(Records(bodies));
    forall i | 0 <= i < |bodies| ensures RecordStep(Records(bodies)[i]) == Item(bodies[i], |Records(bodies)[i]|) {
      RecordRoundTrip(bodies[i]);
    }
    ChunkIndependent(RecordStep, chunks);
    DrainItems(RecordStep, Records(bodies), bodies);
    var frames := Join(Frames(os));
    var stream := Join(bodies);
    assert stream[|header|..] == Ctr(keyStream, at, frames);
    CtrTwice(keyStream, at, frames);
    forall i | 0 <= i < |os| ensures FrameStep(Frames(os)[i]) == Item(Payloads(os)[i], |Frames(os)[i]|) {
      FrameRoundTrip(os[i]);
    }
    DrainItems(FrameStep, Frames(os), Payloads(os));
  }

  /** The last packet is sent last, and its frame comes last. */
  lemma LastSent(w: Wire, tls: bool, keyStream: nat -> byte, os: seq<Outgoing>)
    requires AllWritable(os) && os != [] && |w.header| <= MAX_TLS_PACKET_LENGTH
    ensures var before, o := os[..|os| - 1], os[|os| - 1];
            && AllWritable(before) && Writable(o)
            && |SendAll(w, tls, keyStream, before).header| <= MAX_TLS_PACKET_LENGTH
            && SendAll(w, tls, keyStream, os) == Send(SendAll(w, tls, keyStream, before), tls, keyStream, o)
            && Join(Frames(os)) == Join(Frames(before)) + FrameOf(o)
  {
    hide FrameOf, Send;
    var before, o := os[..|os| - 1], os[|os| - 1];
    assert Frames(os) == Frames(before) + [FrameOf(o)];
    JoinLast(Frames(before), FrameOf(o));
  }

  lemma SendPlain(w: Wire, keyStream: nat -> byte, o: Outgoing)
    requires Writable(o) && |w.header| <= MAX_TLS_PACKET_LENGTH
    ensures Send(w, false, keyStream, o)
            == Wire([], w.first, w.position + |FrameOf(o)|,
                    w.output + w.header + Ctr(keyStream, w.position, FrameOf(o)))
  {
    hide FrameOf, Ctr;
  }

  /** Without records the stream, with what is waiting to go in front of it, is the connection header and then the
      encrypted frames. */
  lemma {:induction false} PlainTransmission(header: seq<byte>, at: nat, keyStream: nat -> byte, os: seq<Outgoing>)
    requires AllWritable(os) && |header| <= MAX_TLS_PACKET_LENGTH
    ensures var w := SendAll(Wire(header, true, at, []), false, keyStream, os);
            && w.position == at + |Join(Frames(os))| && (os != [] ==> w.header == [])
            && w.output + w.header == header + Ctr(keyStream, at, Join(Frames(os)))
  {
    if os == [] {
      assert Join(Frames(os)) == [];
    } else {
      hide FrameOf, Ctr, Send, Join, SendAll, Frames;
      var before, o := os[..|os| - 1], os[|os| - 1];
      PlainTransmission(header, at, keyStream, before);
      LastSent(Wire(header, true, at, []), false, keyStream, os);
      var w, stream := SendAll(Wire(header, true, at, []), false, keyStream, before), Join(Frames(before));
      SendPlain(w, keyStream, o);
      CtrSplit(keyStream, at, stream, FrameOf(o));
      Regroup(header, Ctr(keyStream, at, stream), Ctr(keyStream, at + |stream|, FrameOf(o)));
    }
  }

  lemma Regroup(a: seq<byte>, b: seq<byte>, c: seq<byte>)
    ensures a + b + c + [] == a + (b + c)
  {
  }
}
