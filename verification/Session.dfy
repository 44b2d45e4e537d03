/** One session connection as a state machine: the outgoing queues, the deadline that wakes it up, the service
    requests in flight, and the functions that fill and flush the queues.

    Time is a positive real number given with every event. Everything random is drawn from the stream held by
    the authorisation data, so statements hold for every outcome. */
module Session {
  import opened Options
  import opened AuthData
  import opened CryptoStorer

  datatype Mode = Tcp | Http | HttpLongPoll

  datatype ServiceKind = GetStateInfo | ResendAnswer

  datatype ServiceQuery = ServiceQuery(kind: ServiceKind, containerId: nat, ids: seq<nat>)

  const ACK_DELAY: real := 30.0
  const QUERY_DELAY: real := 0.001
  const RESEND_ANSWER_DELAY: real := 0.001
  const MAX_QUERY_COUNT: nat := 1000
  const MAX_QUERY_BYTES: nat := 32768
  const MAX_IDS: nat := 8192
  const MAX_UNACKED_PACKETS: nat := 100

  /** The outgoing queues and the deadline by which something in them must be sent; 0 stands for no deadline. */
  datatype Queues = Queues(send: seq<Query>, ack: seq<nat>, resend: seq<nat>, cancel: seq<nat>, info: seq<nat>,
                           deadline: real)

  /** Service requests in flight, by message and by the container that carried them. */
  datatype Flight = Flight(service: map<nat, ServiceQuery>, containers: map<nat, seq<nat>>)

  datatype PingState = PingState(at: real, messageId: nat, containerId: nat)

  /** `turns` says that the transport takes turns: after a write it must be read before the next one. */
  datatype Link = Link(mode: Mode, turns: bool, canSend: bool, randomDelay: real, online: bool, isMain: bool,
                       measuredRtt: real, lastPongAt: real, lastReadAt: real)

  datatype State = State(link: Link, auth: Auth, header: Buffer, queues: Queues, flight: Flight, ping: PingState,
                         lastSaltAt: real, needDestroy: bool, sentDestroy: bool, flushAt: real, closed: bool)

  const NO_QUEUES := Queues([], [], [], [], [], 0.0)

  // ---------------------------------------------------------------------------------------------------------
  // Delays
  // ---------------------------------------------------------------------------------------------------------

  function Max(x: real, y: real): real { if x < y then y else x }

  function Min(x: real, y: real): real { if y < x then y else x }

  function Rtt(l: Link): (r: real)
    ensures r >= 2.0
  {
    Max(2.0, l.measuredRtt * 1.5 + 1.0)
  }

  function ReadDisconnectDelay(l: Link): real
  {
    if l.online then Rtt(l) * 3.5 else 135.0 + l.randomDelay
  }

  function PingDisconnectDelay(l: Link): real
  {
    if l.online && l.isMain then Rtt(l) * 2.5 else 135.0 + l.randomDelay
  }

  function PingMayDelay(l: Link): real
  {
    if l.online then Rtt(l) * 0.5 else 30.0 + l.randomDelay
  }

  function PingMustDelay(l: Link): real
  {
    if l.online then Rtt(l) else 60.0 + l.randomDelay
  }

  predicate MayPing(l: Link, lastPingAt: real, now: real)
  {
    lastPingAt == 0.0 || (l.mode != HttpLongPoll && lastPingAt + PingMayDelay(l) < now)
  }

  predicate MustPing(l: Link, lastPingAt: real, now: real)
  {
    lastPingAt == 0.0 || (l.mode != HttpLongPoll && lastPingAt + PingMustDelay(l) < now)
  }

  predicate SaltsDue(lastSaltAt: real, now: real)
  {
    lastSaltAt == 0.0 || lastSaltAt + 60.0 < now
  }

  /** The random delay is between 0 and 5 seconds, and long polling runs over a transport that takes turns. */
  predicate Sound(l: Link)
  {
    0.0 <= l.randomDelay <= 5.0 && (l.mode == HttpLongPoll ==> l.turns)
  }

  /** A new connection. */
  ghost predicate Initial(s: State)
  {
    && Fresh(s.auth) && Sound(s.link) && s.queues == NO_QUEUES && s.flight == Flight(map[], map[])
    && s.ping == PingState(0.0, 0, 0) && s.lastSaltAt == 0.0 && !s.sentDestroy && !s.closed
  }

  // ---------------------------------------------------------------------------------------------------------
  // Filling the queues
  // ---------------------------------------------------------------------------------------------------------

  function SendBefore(q: Queues, tm: real): Queues
  {
    if q.deadline == 0.0 || q.deadline > tm then q.(deadline := tm) else q
  }

  function PushQuery(q: Queues, query: Query, now: real): Queues
  {
    var q1 := if q.send == [] then SendBefore(q, now + QUERY_DELAY) else q;
    q1.(send := q.send + [query])
  }

  function PushInfo(q: Queues, id: nat, now: real): Queues
  {
    var q1 := if q.info == [] then SendBefore(q, now) else q;
    q1.(info := q.info + [id])
  }

  function PushResend(q: Queues, id: nat, now: real): Queues
  {
    var q1 := if q.resend == [] then SendBefore(q, now + RESEND_ANSWER_DELAY) else q;
    q1.(resend := q.resend + [id])
  }

  function PushCancel(q: Queues, id: nat, now: real): Queues
  {
    var q1 := if q.cancel == [] then SendBefore(q, now + RESEND_ANSWER_DELAY) else q;
    q1.(cancel := q.cancel + [id])
  }

  /** An acknowledgement equal to the last queued one is dropped; a hundred of them are sent without delay. */
  function PushAck(q: Queues, id: nat, now: real): Queues
  {
    var q1 := if q.ack == [] then SendBefore(q, now + ACK_DELAY) else q;
    if q.ack != [] && q.ack[|q.ack| - 1] == id then q1
    else
      var q2 := q1.(ack := q.ack + [id]);
      if |q2.ack| >= MAX_UNACKED_PACKETS then SendBefore(q2, now) else q2
  }

  function ForceAck(q: Queues, now: real): Queues
  {
    if q.ack != [] then SendBefore(q, now) else q
  }

  // ---------------------------------------------------------------------------------------------------------
  // Failure of a message or of its container
  // ---------------------------------------------------------------------------------------------------------

  function Requeue(q: Queues, kind: ServiceKind, ids: seq<nat>, now: real): Queues
    decreases |ids|
  {
    if ids == [] then q
    else
      var pushed := if kind == ResendAnswer then PushResend(q, ids[0], now) else PushInfo(q, ids[0], now);
      Requeue(pushed, kind, ids[1..], now)
  }

  /** The queues and the requests in flight, which a failure moves between. */
  datatype Held = Held(queues: Queues, service: map<nat, ServiceQuery>)

  function FailInner(h: Held, id: nat, now: real): Held
  {
    if id !in h.service then h
    else Held(Requeue(h.queues, h.service[id].kind, h.service[id].ids, now), h.service - {id})
  }

  function FailEach(h: Held, ids: seq<nat>, now: real): Held
    decreases |ids|
  {
    if ids == [] then h else FailEach(FailInner(h, ids[0], now), ids[1..], now)
  }

  function OnMessageFailed(s: State, id: nat, now: real): State
  {
    var f := s.flight;
    var h := FailEach(Held(s.queues, f.service), if id in f.containers then f.containers[id] else [id], now);
    s.(sentDestroy := false,
       ping := if id == s.ping.messageId || id == s.ping.containerId then PingState(0.0, 0, 0) else s.ping,
       queues := h.queues, flight := f.(service := h.service))
  }

  // ---------------------------------------------------------------------------------------------------------
  // Building a packet
  // ---------------------------------------------------------------------------------------------------------

  /** How many queries are taken when the first `till`, of `size` bytes together, are taken already. */
  function SendTill(queries: seq<Query>, till: nat, size: nat): (n: nat)
    requires till <= |queries| && till <= MAX_QUERY_COUNT
    ensures till <= n <= |queries| && n <= MAX_QUERY_COUNT
    ensures till < |queries| && till < MAX_QUERY_COUNT && size < MAX_QUERY_BYTES ==> till < n
    decreases |queries| - till
  {
    if till < |queries| && till < MAX_QUERY_COUNT && size < MAX_QUERY_BYTES
    then SendTill(queries, till + 1, size + |queries[till].data|)
    else till
  }

  /** What one flush decides before it touches the queues. */
  datatype Plan = Plan(hasSalt: bool, ping: bool, salts: bool, take: nat, destroy: bool)

  function PlanOf(link: Link, auth: Auth, send: seq<Query>, pingAt: real, saltAt: real, destroy: bool,
                  now: real): (p: Plan)
    ensures p.take <= |send| && p.take <= MAX_QUERY_COUNT
    ensures p.hasSalt && send != [] ==> 0 < p.take
  {
    var hasSalt := HasSalt(auth, now);
    Plan(hasSalt, hasSalt && MayPing(link, pingAt, now),
         link.mode != HttpLongPoll && NeedFutureSalts(auth, now) && SaltsDue(saltAt, now),
         if hasSalt then SendTill(send, 0, 0) else 0, destroy)
  }

  function PlanFor(s: State, now: real): (p: Plan)
    ensures p.take <= |s.queues.send| && p.take <= MAX_QUERY_COUNT
    ensures p.hasSalt && s.queues.send != [] ==> 0 < p.take
  {
    PlanOf(s.link, s.auth, s.queues.send, s.ping.at, s.lastSaltAt, s.needDestroy && !s.sentDestroy, now)
  }

  /** The test that ends a flush early and resets the deadline. It does not look at the queries left waiting. */
  predicate NothingToSend(s: State, p: Plan)
  {
    && p.take == 0 && s.queues.ack == [] && !p.ping && s.link.mode == Tcp && !p.salts
    && s.queues.resend == [] && s.queues.cancel == [] && s.queues.info == [] && !p.destroy
  }

  /** The last `size` identifiers are cut off, the others stay queued. */
  function Cut(ids: seq<nat>, size: nat): seq<nat>
  {
    if size >= |ids| then ids else ids[|ids| - size..]
  }

  function Kept(ids: seq<nat>, size: nat): seq<nat>
  {
    if size >= |ids| then [] else ids[..|ids| - size]
  }

  function WaitFor(l: Link, now: real): Option<HttpWait>
  {
    if l.mode == Tcp then None
    else if l.mode == Http then Some(HttpWait(30, 10, 0))
    else
      var left := Min(PingDisconnectDelay(l) + l.lastPongAt, ReadDisconnectDelay(l) + l.lastReadAt) - now;
      var wait := Min(Max(left - Rtt(l), 0.1), 25.0);
      Some(HttpWait(30, 10, (1000.0 * wait).Floor))
  }

  function PingTimeout(l: Link): nat
  {
    var t := (PingDisconnectDelay(l) + 2.0).Floor;
    if t < 0 then 0 else t
  }

  function PayloadFor(s: State, p: Plan, pingId: nat, now: real): Payload
    requires p.take <= |s.queues.send| && p.take <= MAX_QUERY_COUNT
  {
    var q := s.queues;
    Payload(s.header, q.send[..p.take], Cut(q.ack, MAX_IDS), WaitFor(s.link, now), if p.salts then 64 else 0,
            Cut(q.info, MAX_IDS), Cut(q.resend, MAX_IDS), Cut(q.cancel, MAX_QUERY_COUNT - p.take), p.destroy,
            if p.ping then Some(Ping(pingId, PingTimeout(s.link))) else None)
  }

  predicate AllEmpty(q: Queues)
  {
    q.send == [] && q.ack == [] && q.info == [] && q.resend == [] && q.cancel == []
  }

  function SentQueues(q: Queues, take: nat): Queues
    requires take <= |q.send| && take <= MAX_QUERY_COUNT
  {
    var q1 := Queues(q.send[take..], Kept(q.ack, MAX_IDS), Kept(q.resend, MAX_IDS),
                     Kept(q.cancel, MAX_QUERY_COUNT - take), Kept(q.info, MAX_IDS), q.deadline);
    if AllEmpty(q1) then q1.(deadline := 0.0) else q1
  }

  /** Adds an entry for the message, if there is one, unless its key is taken. */
  function Remember(m: map<nat, ServiceQuery>, messages: seq<Message>, q: ServiceQuery): map<nat, ServiceQuery>
  {
    if messages == [] || messages[0].id in m then m else m[messages[0].id := q]
  }

  function LinkTo(m: map<nat, seq<nat>>, container: nat, messages: seq<Message>): map<nat, seq<nat>>
  {
    if container == 0 || messages == [] then m
    else m[container := (if container in m then m[container] else []) + [messages[0].id]]
  }

  function SentFlight(f: Flight, payload: Payload, packet: Packet): Flight
  {
    var cid := packet.containerId;
    Flight(Remember(Remember(f.service, packet.late.resend, ServiceQuery(ResendAnswer, cid, payload.resend)),
                    packet.early.stateInfo, ServiceQuery(GetStateInfo, cid, payload.stateInfo)),
           LinkTo(LinkTo(f.containers, cid, packet.late.resend), cid, packet.early.stateInfo))
  }

  function SentPing(ping: PingState, packet: Packet, now: real): PingState
  {
    if packet.late.ping == [] then ping else PingState(now, packet.late.ping[0].id, packet.containerId)
  }

  datatype Flushed = Flushed(state: State, payload: Option<Payload>, packet: Option<Packet>)

  /** The authorisation data once the salt was adopted and a ping, if one goes out, took its identifier. */
  function AfterPing(a: Auth, ping: bool, now: real): (r: Auth)
    ensures OnlyAdvanced(UpdateSalt(a, now), r)
  {
    var u := UpdateSalt(a, now);
    if ping then WithNextId(u, now) else u
  }

  function Flush(s: State, now: real): Flushed
  {
    var p := PlanFor(s, now);
    var auth := AfterPing(s.auth, p.ping, now);
    if NothingToSend(s, p) then
      Flushed(s.(auth := auth, queues := s.queues.(deadline := 0.0)), None, None)
    else
      var payload := PayloadFor(s, p, auth.lastMessageId, now);
      var r := Assemble(payload, auth, now);
      Flushed(Sent(s, p, payload, r, now), Some(payload), Some(r.packet))
  }

  /** The state after the packet went out. */
  function Sent(s: State, p: Plan, payload: Payload, r: Assembled, now: real): State
    requires p.take <= |s.queues.send| && p.take <= MAX_QUERY_COUNT
  {
    s.(auth := r.auth,
       link := s.link.(canSend := s.link.canSend && !s.link.turns),
       queues := SentQueues(s.queues, p.take),
       flight := SentFlight(s.flight, payload, r.packet),
       ping := SentPing(s.ping, r.packet, now),
       lastSaltAt := if p.salts then now else s.lastSaltAt,
       sentDestroy := s.sentDestroy || p.destroy)
  }

  // ---------------------------------------------------------------------------------------------------------
  // When a packet must be flushed
  // ---------------------------------------------------------------------------------------------------------

  function Relax(timeout: real, newTimeout: real): real
  {
    if newTimeout == 0.0 then timeout else if timeout == 0.0 || newTimeout < timeout then newTimeout else timeout
  }

  predicate Ready(s: State, now: real)
  {
    HasAuthKey(s.auth, now) && s.link.canSend
  }

  predicate MustFlush(s: State, now: real)
  {
    && Ready(s, now)
    && var hasSalt := HasSalt(s.auth, now);
       if s.link.mode == HttpLongPoll then hasSalt
       else if hasSalt then
         || (s.queues.deadline != 0.0 && now > s.queues.deadline)
         || MustPing(s.link, s.ping.at, now)
         || (s.needDestroy && !s.sentDestroy)
       else SaltsDue(s.lastSaltAt, now)
  }

  /** The time the caller is told to come back at when nothing must be flushed now; 0 stands for never. */
  function FlushAt(s: State, now: real): real
  {
    if !Ready(s, now) || s.link.mode == HttpLongPoll then 0.0
    else if HasSalt(s.auth, now) then Relax(Relax(0.0, s.queues.deadline), s.ping.at + PingMustDelay(s.link))
    else Relax(0.0, s.lastSaltAt + 60.0)
  }

  /** The state after the loop found nothing more to flush. */
  function Idle(s: State, now: real): State
  {
    s.(auth := if Ready(s, now) then UpdateSalt(s.auth, now) else s.auth, flushAt := FlushAt(s, now))
  }
}
