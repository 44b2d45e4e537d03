/** How one outgoing packet is assembled: the messages it carries, the identifiers and sequence numbers they
    take, the choice between a bare message and a container, and the bytes. The receiving side's parser is
    modelled beside it. */
module CryptoStorer {
  import opened Bytes
  import opened Options
  import opened TlCodec
  import opened AuthData

  const MSG_CONTAINER_ID: nat := 0x73f1f8dc
  const VECTOR_ID: nat := 0x1cb5c415

  /** A buffer whose size fits the 32-bit length fields; a longer one cannot be stored at all. */
  type Buffer = b: seq<byte> | |b| < 0x1_0000_0000

  datatype Query = Query(id: nat, seqNo: nat, data: Buffer, gzip: bool, invokeAfter: seq<nat>, quickAck: bool)

  datatype HttpWait = HttpWait(maxDelay: nat, maxAfter: nat, maxWait: nat)

  datatype Ping = Ping(id: nat, timeout: nat)

  /** What one packet is to carry. */
  datatype Payload = Payload(
    header: Buffer, queries: seq<Query>, ack: seq<nat>, httpWait: Option<HttpWait>, futureSalts: nat,
    stateInfo: seq<nat>, resend: seq<nat>, cancel: seq<nat>, destroyKey: bool, ping: Option<Ping>)

  datatype Message = Message(id: nat, seqNo: nat, body: seq<byte>)

  // ---------------------------------------------------------------------------------------------------------
  // Message bodies
  // ---------------------------------------------------------------------------------------------------------

  function Longs(ids: seq<nat>): (b: seq<byte>)
    ensures |b| == 8 * |ids|
  {
    if ids == [] then [] else LE(ids[0], 8) + Longs(ids[1..])
  }

  function IdsBody(constructorId: nat, ids: seq<nat>): (b: seq<byte>)
    ensures |b| == 12 + 8 * |ids|
  {
    LE(constructorId, 4) + LE(VECTOR_ID, 4) + LE(|ids|, 4) + Longs(ids)
  }

  function InvokeAfter(ids: seq<nat>): seq<byte>
  {
    if ids == [] then []
    else if |ids| == 1 then LE(0xcb9f372d, 4) + LE(ids[0], 8)
    else IdsBody(0x3dc4b4f0, ids)
  }

  function QueryBody(q: Query, header: Buffer): seq<byte>
  {
    header + InvokeAfter(q.invokeAfter) + (if q.gzip then LE(0x3072cfa1, 4) + StoreString(q.data) else q.data)
  }

  function QueryMessages(queries: seq<Query>, header: Buffer): (ms: seq<Message>)
    ensures |ms| == |queries|
    ensures forall i :: 0 <= i < |ms| ==>
              ms[i] == Message(queries[i].id, queries[i].seqNo, QueryBody(queries[i], header))
  {
    seq(|queries|, i requires 0 <= i < |queries| =>
        Message(queries[i].id, queries[i].seqNo, QueryBody(queries[i], header)))
  }

  // ---------------------------------------------------------------------------------------------------------
  // Assembly
  // ---------------------------------------------------------------------------------------------------------

  datatype Part = Part(messages: seq<Message>, auth: Auth)

  /** An optional service message; one that is present takes the next identifier. */
  function Service(present: bool, body: seq<byte>, a: Auth, now: real): (r: Part)
    ensures |r.messages| == if present then 1 else 0
    ensures present ==> r.messages[0].body == body
    ensures OnlyAdvanced(a, r.auth)
    ensures present ==> a.lastMessageId < r.messages[0].id <= r.auth.lastMessageId
  {
    if !present then Part([], a)
    else
      var slot := Allocate(a, now, false);
      Part([Message(slot.id, slot.seqNo, body)], slot.auth)
  }

  function Cancels(cancel: seq<nat>, a: Auth, now: real): (r: Part)
    ensures |r.messages| == |cancel| && OnlyAdvanced(a, r.auth)
    decreases |cancel|
  {
    if cancel == [] then Part([], a)
    else
      var first := Service(true, CancelBody(cancel[0]), a, now);
      var rest := Cancels(cancel[1..], first.auth, now);
      Part(first.messages + rest.messages, rest.auth)
  }

  datatype PacketType = OnlyQuery | OnlyAck | OnlyPing | OnlyHttpWait | OnlyGetFutureSalts | OnlyResend | OnlyCancel
                      | OnlyGetInfo | OnlyDestroyKey | Mixed | Unreachable

  /** The service messages stored first and last. */
  datatype Early = Early(ack: seq<Message>, httpWait: seq<Message>, futureSalts: seq<Message>, stateInfo: seq<Message>)
  datatype Late = Late(resend: seq<Message>, cancel: seq<Message>, destroyKey: seq<Message>, ping: seq<Message>)

  datatype Packet = Packet(queries: seq<Message>, early: Early, late: Late, kind: PacketType, count: nat,
                           containerId: nat, containerSeqNo: nat)

  function EarlyMessages(e: Early): seq<Message>
  {
    e.ack + e.httpWait + e.futureSalts + e.stateInfo
  }

  function LateMessages(l: Late): seq<Message>
  {
    l.resend + l.cancel + l.destroyKey + l.ping
  }

  /** All messages in the order in which they are stored. */
  function Inner(p: Packet): seq<Message>
  {
    p.queries + EarlyMessages(p.early) + LateMessages(p.late)
  }

  predicate ValidOutbound(id: nat, a: Auth, now: real)
  {
    var t := id as real / 4294967296.0;
    ServerTime(a, now) - 150.0 < t < ServerTime(a, now) + 30.0
  }

  /** The kind of a packet that holds exactly one message. */
  function SingleKind(p: Payload): PacketType
  {
    if p.queries != [] then OnlyQuery
    else if p.ack != [] then OnlyAck
    else if p.ping.Some? then OnlyPing
    else if p.httpWait.Some? then OnlyHttpWait
    else if p.futureSalts > 0 then OnlyGetFutureSalts
    else if p.stateInfo != [] then OnlyGetInfo
    else if p.resend != [] then OnlyResend
    else if p.cancel != [] then OnlyCancel
    else if p.destroyKey then OnlyDestroyKey
    else Unreachable
  }

  function One(present: bool): nat { if present then 1 else 0 }

  /** The value of the count field. */
  function Count(p: Payload): nat
  {
    |p.queries| + One(p.ack != []) + One(p.ping.Some?) + One(p.httpWait.Some?) + One(p.futureSalts > 0)
    + One(p.stateInfo != []) + One(p.resend != []) + |p.cancel| + One(p.destroyKey)
  }

  function PingBody(p: Option<Ping>): seq<byte>
  {
    if p.Some? then LE(0xf3427b8c, 4) + LE(p.value.id, 8) + LE(p.value.timeout, 4) else []
  }

  function SaltsBody(n: nat): seq<byte> { LE(0xb921bd04, 4) + LE(n, 4) }

  function DestroyBody(): seq<byte> { LE(0xd1435160, 4) }

  function CancelBody(id: nat): seq<byte> { LE(0x58e4a740, 4) + LE(id, 8) }

  function HttpWaitBody(w: Option<HttpWait>): seq<byte>
  {
    if w.Some? then LE(0x9299359f, 4) + LE(w.value.maxDelay, 4) + LE(w.value.maxAfter, 4) + LE(w.value.maxWait, 4)
    else []
  }

  datatype Assembled = Assembled(packet: Packet, auth: Auth)

  function AssembleEarly(p: Payload, a: Auth, now: real): (r: (Early, Auth))
    ensures OnlyAdvanced(a, r.1)
  {
    var ack := Service(p.ack != [], IdsBody(0x62d6b459, p.ack), a, now);
    var wait := Service(p.httpWait.Some?, HttpWaitBody(p.httpWait), ack.auth, now);
    var salts := Service(p.futureSalts > 0, SaltsBody(p.futureSalts), wait.auth, now);
    var info := Service(p.stateInfo != [], IdsBody(0xda69fb52, p.stateInfo), salts.auth, now);
    (Early(ack.messages, wait.messages, salts.messages, info.messages), info.auth)
  }

  function AssembleLate(p: Payload, a: Auth, now: real): (r: (Late, Auth))
    ensures OnlyAdvanced(a, r.1)
  {
    var resend := Service(p.resend != [], IdsBody(0x7d861a08, p.resend), a, now);
    var cancel := Cancels(p.cancel, resend.auth, now);
    var destroy := Service(p.destroyKey, DestroyBody(), cancel.auth, now);
    var ping := Service(p.ping.Some?, PingBody(p.ping), destroy.auth, now);
    (Late(resend.messages, cancel.messages, destroy.messages, ping.messages), ping.auth)
  }

  function AssembleInner(p: Payload, a: Auth, now: real): (r: Assembled)
    ensures OnlyAdvanced(a, r.auth)
  {
    var (early, a1) := AssembleEarly(p, a, now);
    var (late, a2) := AssembleLate(p, a1, now);
    Assembled(Packet(QueryMessages(p.queries, p.header), early, late, SingleKind(p), Count(p), 0, 0), a2)
  }

  predicate NeedsContainer(p: Payload, a: Auth, now: real)
  {
    Count(p) > 1 || (p.queries != [] && !ValidOutbound(p.queries[0].id, a, now))
  }

  /** The whole packet: a container takes its own identifier after all inner messages took theirs. */
  function Assemble(p: Payload, a: Auth, now: real): (r: Assembled)
    ensures OnlyAdvanced(a, r.auth)
  {
    var inner := AssembleInner(p, a, now);
    if NeedsContainer(p, inner.auth, now) then
      var slot := Allocate(inner.auth, now, false);
      Assembled(inner.packet.(kind := Mixed, containerId := slot.id, containerSeqNo := slot.seqNo), slot.auth)
    else inner
  }

  /** The part a packet of this kind stores when it is not a container. */
  function Chosen(p: Packet): seq<Message>
  {
    match p.kind
    case OnlyQuery => p.queries
    case OnlyAck => p.early.ack
    case OnlyPing => p.late.ping
    case OnlyHttpWait => p.early.httpWait
    case OnlyGetFutureSalts => p.early.futureSalts
    case OnlyResend => p.late.resend
    case OnlyCancel => p.late.cancel
    case OnlyGetInfo => p.early.stateInfo
    case OnlyDestroyKey => p.late.destroyKey
    case Mixed => []
    case Unreachable => []
  }

  function StoreMessage(m: Message): seq<byte>
  {
    LE(m.id, 8) + LE(m.seqNo, 4) + LE(|m.body|, 4) + m.body
  }

  function StoreMessages(ms: seq<Message>): seq<byte>
  {
    if ms == [] then [] else StoreMessage(ms[0]) + StoreMessages(ms[1..])
  }

  function ContainerBody(p: Packet): seq<byte>
  {
    LE(MSG_CONTAINER_ID, 4) + LE(p.count, 4) + StoreMessages(Inner(p))
  }

  function StorePacket(p: Packet): seq<byte>
  {
    if p.kind == Mixed then StoreMessage(Message(p.containerId, p.containerSeqNo, ContainerBody(p)))
    else StoreMessages(Chosen(p))
  }

  // ---------------------------------------------------------------------------------------------------------
  // The receiving parser
  // ---------------------------------------------------------------------------------------------------------

  function ParseMessage(b: seq<byte>): Parsed<Message>
  {
    if |b| < 16 then Fail
    else
      var id := FromLE(b[..8]);
      var seqNo := FromLE(b[8..12]);
      var size := FromLE(b[12..16]);
      if size % 4 != 0 || |b| - 16 < size then Fail
      else Ok(Message(id, seqNo, b[16..16 + size]), b[16 + size..])
  }

  function ParseMessages(n: nat, b: seq<byte>): Parsed<seq<Message>>
  {
    if n == 0 then Ok([], b)
    else
      match ParseMessage(b)
      case Fail => Fail
      case Ok(m, rest) =>
        match ParseMessages(n - 1, rest)
        case Fail => Fail
        case Ok(ms, end) => Ok([m] + ms, end)
  }

  /** The container's count is a signed 32-bit number, so a negative one holds no message. */
  function ParseContainer(b: seq<byte>): Parsed<seq<Message>>
  {
    match FetchWord(b, 4)
    case Fail => Fail
    case Ok(n, rest) => ParseMessages(if n < 0x8000_0000 then n else 0, rest)
  }

  // ---------------------------------------------------------------------------------------------------------
  // The count and the kind
  // ---------------------------------------------------------------------------------------------------------

  lemma EarlyCount(p: Payload, a: Auth, now: real)
    ensures var e := AssembleEarly(p, a, now).0;
            && |e.ack| == One(p.ack != []) && |e.httpWait| == One(p.httpWait.Some?)
            && |e.futureSalts| == One(p.futureSalts > 0) && |e.stateInfo| == One(p.stateInfo != [])
  {
    hide Service, IdsBody, HttpWaitBody, SaltsBody;
  }

  lemma LateCount(p: Payload, a: Auth, now: real)
    ensures var l := AssembleLate(p, a, now).0;
            && |l.resend| == One(p.resend != []) && |l.cancel| == |p.cancel|
            && |l.destroyKey| == One(p.destroyKey) && |l.ping| == One(p.ping.Some?)
  {
    hide Service, IdsBody, PingBody, Cancels;
  }

  lemma CountIsLength(p: Payload, a: Auth, now: real)
    ensures Count(p) == |Inner(AssembleInner(p, a, now).packet)|
  {
    hide AssembleEarly, AssembleLate, QueryBody;
    EarlyCount(p, a, now);
    LateCount(p, AssembleEarly(p, a, now).1, now);
  }

  lemma OneMessage(p: Payload, a: Auth, now: real)
    requires Count(p) == 1
    ensures var r := AssembleInner(p, a, now).packet;
            Chosen(r) == Inner(r)
  {
    hide AssembleEarly, AssembleLate, QueryBody;
    EarlyCount(p, a, now);
    LateCount(p, AssembleEarly(p, a, now).1, now);
    var r := AssembleInner(p, a, now).packet;
    if EarlyMessages(r.early) == [] && r.queries == [] {
      assert Chosen(r) == LateMessages(r.late);
    } else {
      assert LateMessages(r.late) == [];
    }
  }

  /** The count field is the number of stored messages, a packet that carries anything never reaches the
      unreachable branch, and a packet that is no container stores exactly its one message. */
  lemma KindAndCount(p: Payload, a: Auth, now: real)
    ensures var r := Assemble(p, a, now).packet;
            && r.count == Count(p) == |Inner(r)|
            && (r.kind == Unreachable <==> Count(p) == 0)
            && (r.kind == Mixed <==> r.containerId != 0)
            && (0 < Count(p) && r.kind != Mixed ==> |Inner(r)| == 1 && Chosen(r) == Inner(r))
  {
    hide NextId, QueryBody, AssembleEarly, AssembleLate;
    CountIsLength(p, a, now);
    if Count(p) == 1 {
      OneMessage(p, a, now);
    }
  }

  // ---------------------------------------------------------------------------------------------------------
  // Printing and parsing
  // ---------------------------------------------------------------------------------------------------------

  /** The header fields of the message fit their widths. */
  predicate FieldsFit(m: Message)
  {
    m.id < TWO_64 && m.seqNo < TWO_32 && |m.body| < TWO_32
  }

  predicate AllFit(ms: seq<Message>)
  {
    forall i :: 0 <= i < |ms| ==> FieldsFit(ms[i])
  }

  /** Every body is a multiple of four bytes long. */
  predicate Aligned(ms: seq<Message>)
  {
    forall i :: 0 <= i < |ms| ==> |ms[i].body| % 4 == 0
  }

  lemma MessageRoundTrip(m: Message, rest: seq<byte>)
    requires FieldsFit(m)
    ensures ParseMessage(StoreMessage(m) + rest) == if |m.body| % 4 == 0 then Ok(m, rest) else Fail
  {
    hide LE, FromLE, Pow256;
    Widths();
    var b := StoreMessage(m) + rest;
    HeaderFields(m, rest);
    FromLEInverse(m.id, 8);
    FromLEInverse(m.seqNo, 4);
    FromLEInverse(|m.body|, 4);
    assert b[16..16 + |m.body|] == m.body;
    assert b[16 + |m.body|..] == rest;
  }

  lemma HeaderFields(m: Message, rest: seq<byte>)
    ensures var b := StoreMessage(m) + rest;
            |b| >= 16 && b[..8] == LE(m.id, 8) && b[8..12] == LE(m.seqNo, 4) && b[12..16] == LE(|m.body|, 4)
  {
    hide LE;
  }

  /** A run of stored messages is parsed back exactly when every body is a multiple of four bytes long; when one
      is not, the parser stops with an error. */
  lemma {:induction false} MessagesRoundTrip(ms: seq<Message>, rest: seq<byte>)
    requires AllFit(ms)
    ensures ParseMessages(|ms|, StoreMessages(ms) + rest) == if Aligned(ms) then Ok(ms, rest) else Fail
  {
    hide StoreMessage, ParseMessage, FieldsFit;
    if ms == [] {
      assert StoreMessages(ms) + rest == rest;
    } else {
      var tail := StoreMessages(ms[1..]) + rest;
      assert StoreMessages(ms) + rest == StoreMessage(ms[0]) + tail;
      MessageRoundTrip(ms[0], tail);
      MessagesRoundTrip(ms[1..], rest);
      AlignedSplit(ms);
      assert ms == [ms[0]] + ms[1..];
    }
  }

  lemma AlignedSplit(ms: seq<Message>)
    requires ms != []
    ensures Aligned(ms) <==> |ms[0].body| % 4 == 0 && Aligned(ms[1..])
  {
    assert ms == [ms[0]] + ms[1..];
  }

  /** What the parser finds in the bytes of a packet: the messages and, for a container, its own header. */
  ghost predicate Recovers(b: seq<byte>, p: Packet)
  {
    if p.kind == Mixed then
      var top := ParseMessage(b);
      && top.Ok? && top.rest == []
      && top.value.id == p.containerId && top.value.seqNo == p.containerSeqNo
      && |top.value.body| >= 4 && FetchWord(top.value.body, 4) == Ok(MSG_CONTAINER_ID, top.value.body[4..])
      && ParseContainer(top.value.body[4..]) == Ok(Inner(p), [])
    else
      |Inner(p)| == 1 && ParseMessage(b) == Ok(Inner(p)[0], [])
  }

  /** The receiving parser recovers from the stored bytes of any packet exactly the list of messages that was put
      in it if and only if all bodies are multiples of four bytes. */
  lemma PacketRoundTrip(p: Payload, a: Auth, now: real)
    requires 0 < Count(p)
    ensures var r := Assemble(p, a, now).packet;
            PacketFits(r) ==> (Recovers(StorePacket(r), r) <==> Aligned(Inner(r)))
  {
    hide Assemble, StorePacket, Recovers, Aligned, Inner, Count, ContainerBody;
    KindAndCount(p, a, now);
    var r := Assemble(p, a, now).packet;
    if PacketFits(r) { StoredRoundTrip(r); }
  }

  /** Numbers and lengths fit the fields they are stored in. */
  ghost predicate PacketFits(r: Packet)
  {
    && r.count < 0x8000_0000 && AllFit(Inner(r))
    && r.containerId < TWO_64 && r.containerSeqNo < TWO_32 && |ContainerBody(r)| < TWO_32
  }

  lemma StoredRoundTrip(r: Packet)
    requires 0 < r.count == |Inner(r)| < 0x8000_0000
    requires r.kind != Mixed ==> |Inner(r)| == 1 && Chosen(r) == Inner(r)
    requires AllFit(Inner(r))
    requires r.containerId < TWO_64 && r.containerSeqNo < TWO_32 && |ContainerBody(r)| < TWO_32
    ensures Recovers(StorePacket(r), r) <==> Aligned(Inner(r))
  {
    if r.kind == Mixed {
      ContainerRoundTrip(r);
    } else {
      var m := Inner(r)[0];
      assert Inner(r) == [m];
      assert StoreMessages([m]) == StoreMessage(m) + StoreMessages([]);
      assert StorePacket(r) == StoreMessage(m) + [];
      MessageRoundTrip(m, []);
    }
  }

  lemma ContainerRoundTrip(r: Packet)
    requires r.kind == Mixed && r.count == |Inner(r)| < 0x8000_0000
    requires AllFit(Inner(r))
    requires r.containerId < TWO_64 && r.containerSeqNo < TWO_32 && |ContainerBody(r)| < TWO_32
    ensures Recovers(StorePacket(r), r) <==> Aligned(Inner(r))
  {
    hide Inner, LE, FromLE, Pow256, ParseMessages, StoreMessages;
    Widths();
    var body := ContainerBody(r);
    var inner := StoreMessages(Inner(r));
    var top := Message(r.containerId, r.containerSeqNo, body);
    assert StorePacket(r) == StoreMessage(top) + [];
    MessageRoundTrip(top, []);
    assert body == LE(MSG_CONTAINER_ID, 4) + (LE(r.count, 4) + inner);
    WordRoundTrip(MSG_CONTAINER_ID, 4, LE(r.count, 4) + inner);
    WordRoundTrip(r.count, 4, inner);
    assert inner + [] == inner;
    MessagesRoundTrip(Inner(r), []);
    StoredLength(Inner(r));
    assert body[4..] == LE(r.count, 4) + inner;
  }

  lemma {:induction false} StoredLength(ms: seq<Message>)
    ensures Aligned(ms) ==> |StoreMessages(ms)| % 4 == 0
  {
    hide LE;
    if ms != [] {
      StoredLength(ms[1..]);
      assert ms == [ms[0]] + ms[1..];
      assert |StoreMessage(ms[0])| == 16 + |ms[0].body|;
    }
  }

  // ---------------------------------------------------------------------------------------------------------
  // Identifiers and sequence numbers
  // ---------------------------------------------------------------------------------------------------------

  /** Identifiers increase strictly and lie in (from, to]; sequence numbers never decrease, and a content-related
      message, which has an odd one, is strictly below everything after it. */
  ghost predicate Chain(ms: seq<Message>, from: (nat, nat), to: (nat, nat))
  {
    && from.0 <= to.0 && from.1 <= to.1
    && (forall i :: 0 <= i < |ms| ==> InRange(ms[i], from, to))
    && (forall i, j :: 0 <= i < j < |ms| ==> Precedes(ms[i], ms[j]))
  }

  ghost predicate InRange(m: Message, from: (nat, nat), to: (nat, nat))
  {
    from.0 < m.id <= to.0 && from.1 <= m.seqNo <= to.1 && (m.seqNo % 2 == 1 ==> m.seqNo < to.1)
  }

  ghost predicate Precedes(m: Message, n: Message)
  {
    m.id < n.id && m.seqNo <= n.seqNo && (m.seqNo % 2 == 1 ==> m.seqNo < n.seqNo)
  }

  lemma ChainAppend(ms: seq<Message>, ns: seq<Message>, x: (nat, nat), y: (nat, nat), z: (nat, nat))
    requires Chain(ms, x, y) && Chain(ns, y, z)
    ensures Chain(ms + ns, x, z)
  {
    var all := ms + ns;
    forall i | 0 <= i < |all| ensures InRange(all[i], x, z) {
      if i < |ms| { assert InRange(ms[i], x, y); } else { assert InRange(ns[i - |ms|], y, z); }
    }
    forall i, j | 0 <= i < j < |all| ensures Precedes(all[i], all[j]) {
      if j < |ms| { assert Precedes(ms[i], ms[j]); }
      else if i < |ms| { assert InRange(ms[i], x, y) && InRange(ns[j - |ms|], y, z); }
      else { assert Precedes(ns[i - |ms|], ns[j - |ms|]); }
    }
  }

  lemma ServiceChain(present: bool, body: seq<byte>, a: Auth, now: real)
    requires Fresh(a)
    ensures var r := Service(present, body, a, now);
            Fresh(r.auth) && Chain(r.messages, Position(a), Position(r.auth))
  {
    AllocateAdvances(a, now, false);
  }

  lemma {:induction false} CancelsChain(cancel: seq<nat>, a: Auth, now: real)
    requires Fresh(a)
    ensures var r := Cancels(cancel, a, now);
            Fresh(r.auth) && Chain(r.messages, Position(a), Position(r.auth))
    decreases |cancel|
  {
    hide Service;
    if cancel != [] {
      var body := CancelBody(cancel[0]);
      var first := Service(true, body, a, now);
      ServiceChain(true, body, a, now);
      CancelsChain(cancel[1..], first.auth, now);
      var rest := Cancels(cancel[1..], first.auth, now);
      ChainAppend(first.messages, rest.messages, Position(a), Position(first.auth), Position(rest.auth));
    }
  }

  /** When the queries took their identifiers in order, all messages of a packet are stored in increasing order of
      identifier with the sequence numbers in step, and the container's identifier is above all of them. */
  lemma PacketChain(p: Payload, a: Auth, now: real)
    requires Fresh(a) && Chain(QueryMessages(p.queries, p.header), (0, 0), Position(a))
    ensures var r := Assemble(p, a, now);
            && Fresh(r.auth)
            && Chain(Inner(r.packet), (0, 0), Position(r.auth))
            && (r.packet.kind == Mixed ==>
                  forall m :: m in Inner(r.packet) ==>
                    m.id < r.packet.containerId && m.seqNo <= r.packet.containerSeqNo)
  {
    InnerChain(p, a, now);
    var inner := AssembleInner(p, a, now);
    if NeedsContainer(p, inner.auth, now) {
      hide AssembleInner, NextId, Inner;
      var slot := Allocate(inner.auth, now, false);
      AllocateAdvances(inner.auth, now, false);
      var ms := Inner(inner.packet);
      assert Inner(Assemble(p, a, now).packet) == ms by { assert SameInner(inner.packet, Assemble(p, a, now).packet); }
      hide Chain;
      ChainAbove(ms, Position(inner.auth), slot.id, Position(slot.auth));
    }
  }

  /** What is allocated after a chain is above all of it. */
  lemma ChainAbove(ms: seq<Message>, x: (nat, nat), id: nat, y: (nat, nat))
    requires Chain(ms, (0, 0), x) && x.0 < id && x.0 <= y.0 && x.1 <= y.1
    ensures Chain(ms, (0, 0), y) && forall m :: m in ms ==> m.id < id && m.seqNo <= x.1
  {
    forall i | 0 <= i < |ms| ensures InRange(ms[i], (0, 0), y) { assert InRange(ms[i], (0, 0), x); }
    forall m | m in ms ensures m.id < id && m.seqNo <= x.1 {
      var i :| 0 <= i < |ms| && ms[i] == m;
      assert InRange(ms[i], (0, 0), x);
    }
  }

  ghost predicate SameInner(p: Packet, q: Packet)
    ensures SameInner(p, q) ==> Inner(p) == Inner(q)
  {
    p.(kind := q.kind, count := q.count, containerId := q.containerId, containerSeqNo := q.containerSeqNo) == q
  }

  lemma Chain4(m1: seq<Message>, m2: seq<Message>, m3: seq<Message>, m4: seq<Message>,
               x0: (nat, nat), x1: (nat, nat), x2: (nat, nat), x3: (nat, nat), x4: (nat, nat))
    requires Chain(m1, x0, x1) && Chain(m2, x1, x2) && Chain(m3, x2, x3) && Chain(m4, x3, x4)
    ensures Chain(m1 + m2 + m3 + m4, x0, x4)
  {
    hide Chain;
    ChainAppend(m1, m2, x0, x1, x2);
    ChainAppend(m1 + m2, m3, x0, x2, x3);
    ChainAppend(m1 + m2 + m3, m4, x0, x3, x4);
  }

  lemma EarlyChain(p: Payload, a: Auth, now: real)
    requires Fresh(a)
    ensures var r := AssembleEarly(p, a, now);
            Fresh(r.1) && Chain(EarlyMessages(r.0), Position(a), Position(r.1))
  {
    hide Service, Chain, IdsBody, HttpWaitBody, SaltsBody, Fresh, Position, OnlyAdvanced;
    ServiceChain(p.ack != [], IdsBody(0x62d6b459, p.ack), a, now);
    var ack := Service(p.ack != [], IdsBody(0x62d6b459, p.ack), a, now);
    ServiceChain(p.httpWait.Some?, HttpWaitBody(p.httpWait), ack.auth, now);
    var wait := Service(p.httpWait.Some?, HttpWaitBody(p.httpWait), ack.auth, now);
    ServiceChain(p.futureSalts > 0, SaltsBody(p.futureSalts), wait.auth, now);
    var salts := Service(p.futureSalts > 0, SaltsBody(p.futureSalts), wait.auth, now);
    ServiceChain(p.stateInfo != [], IdsBody(0xda69fb52, p.stateInfo), salts.auth, now);
    var info := Service(p.stateInfo != [], IdsBody(0xda69fb52, p.stateInfo), salts.auth, now);
    Chain4(ack.messages, wait.messages, salts.messages, info.messages,
           Position(a), Position(ack.auth), Position(wait.auth), Position(salts.auth), Position(info.auth));
  }

  lemma LateChain(p: Payload, a: Auth, now: real)
    requires Fresh(a)
    ensures var r := AssembleLate(p, a, now);
            Fresh(r.1) && Chain(LateMessages(r.0), Position(a), Position(r.1))
  {
    hide Service, Cancels, Chain, IdsBody, PingBody, DestroyBody, Fresh, Position, OnlyAdvanced;
    ServiceChain(p.resend != [], IdsBody(0x7d861a08, p.resend), a, now);
    var resend := Service(p.resend != [], IdsBody(0x7d861a08, p.resend), a, now);
    CancelsChain(p.cancel, resend.auth, now);
    var cancel := Cancels(p.cancel, resend.auth, now);
    ServiceChain(p.destroyKey, DestroyBody(), cancel.auth, now);
    var destroy := Service(p.destroyKey, DestroyBody(), cancel.auth, now);
    ServiceChain(p.ping.Some?, PingBody(p.ping), destroy.auth, now);
    var ping := Service(p.ping.Some?, PingBody(p.ping), destroy.auth, now);
    Chain4(resend.messages, cancel.messages, destroy.messages, ping.messages,
           Position(a), Position(resend.auth), Position(cancel.auth), Position(destroy.auth), Position(ping.auth));
  }

  lemma InnerChain(p: Payload, a: Auth, now: real)
    requires Fresh(a) && Chain(QueryMessages(p.queries, p.header), (0, 0), Position(a))
    ensures var r := AssembleInner(p, a, now);
            Fresh(r.auth) && Chain(Inner(r.packet), (0, 0), Position(r.auth))
  {
    hide AssembleEarly, AssembleLate, Chain, QueryMessages, Fresh, Position, Count, SingleKind, OnlyAdvanced;
    var queries := QueryMessages(p.queries, p.header);
    var (early, a1) := AssembleEarly(p, a, now);
    var (late, a2) := AssembleLate(p, a1, now);
    EarlyChain(p, a, now);
    LateChain(p, a1, now);
    ChainAppend(queries, EarlyMessages(early), (0, 0), Position(a), Position(a1));
    ChainAppend(queries + EarlyMessages(early), LateMessages(late), (0, 0), Position(a1), Position(a2));
  }
}
