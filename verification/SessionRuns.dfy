/** Runs of a session: every event that can reach the connection, what one event does, and the record kept of
    everything that went in and out. */
module SessionRuns {
  import opened Options
  import opened AuthData
  import opened CryptoStorer
  import opened Session
  import opened SessionWakeup

  /** One packet that was sent and what it was built from. */
  datatype Record = Record(payload: Payload, packet: Packet)

  /** Everything the session was asked for and everything it did. `returned` are the queries handed back to the
      caller when the session fails, `dropped*` the identifiers of a request answered in a way that closes the
      connection, `bound` the identifiers taken by messages that bind a temporary key. `given` tells of every submitted
      query whether its identifier came from the caller. */
  datatype Log = Log(
    submitted: seq<Query>, sent: seq<Query>, returned: seq<Query>, given: seq<bool>,
    askedInfo: seq<nat>, answeredInfo: seq<nat>, droppedInfo: seq<nat>,
    askedResend: seq<nat>, droppedResend: seq<nat>,
    packets: seq<Record>, bound: seq<nat>, since: Since)

  const NOTHING_LOGGED := Log([], [], [], [], [], [], [], [], [], [], [], Since(0.0, 0.0, 0.0, 0.0, 0.0))

  datatype World = World(s: State, log: Log)

  /** `BeforeWrite` is the whole loop with the clock at rest, `Turn` one turn of it with the clock read once for the
      test and once more for the flush. */
  datatype Event =
    | SendQuery(now: real, data: Buffer, gzip: bool, id: nat, invokeAfter: seq<nat>, quickAck: bool)
    | AskStateInfo(now: real, id: nat)
    | AskResend(now: real, id: nat)
    | AskCancel(now: real, id: nat)
    | Acknowledge(now: real, id: nat)
    | ForceAcks(now: real)
    | DestroyKey
    | SetOnline(now: real, online: bool, isMain: bool)
    | MessageFailed(now: real, id: nat)
    | BadServerSalt(now: real, salt: int, id: nat)
    | FutureSalts(now: real, schedule: seq<ServerSalt>)
    | StateInfo(id: nat, count: nat)
    | MessageIdTooHigh
    | ProtocolError
    | LinkChanged(canSend: bool, measuredRtt: real, lastPongAt: real, lastReadAt: real, header: Buffer)
    | AuthChanged(hasMainKey: bool, tmpKeyExpiresAt: Option<real>, timeDifference: real)
    | BindKey(now: real)
    | BeforeWrite(now: real)
    | Turn(tested: real, flushed: real)

  predicate Timed(e: Event)
  {
    match e
    case SendQuery(now, _, _, _, _, _) => now > 0.0
    case AskStateInfo(now, _) => now > 0.0
    case AskResend(now, _) => now > 0.0
    case AskCancel(now, _) => now > 0.0
    case Acknowledge(now, _) => now > 0.0
    case ForceAcks(now) => now > 0.0
    case MessageFailed(now, _) => now > 0.0
    case BadServerSalt(now, _, _) => now > 0.0
    case BindKey(now) => now > 0.0
    case BeforeWrite(now) => now > 0.0
    case Turn(tested, flushed) => tested > 0.0 && flushed > 0.0
    case _ => true
  }

  /** Replaces the queues and notes which of them became non-empty. */
  function Filled(w: World, queues: Queues, now: real): World
  {
    World(w.s.(queues := queues), w.log.(since := Stamp(w.log.since, w.s.queues, queues, now)))
  }

  function SendQueryStep(w: World, e: Event): World
    requires e.SendQuery?
  {
    if w.s.link.mode == HttpLongPoll then w.(s := w.s.(closed := true))
    else
      var a := w.s.auth;
      var slot := if e.id == 0 then Allocate(a, e.now, true)
                  else Allocated(e.id, NextSeqNo(a.seqNo, true).0, a.(seqNo := NextSeqNo(a.seqNo, true).1));
      var query := Query(slot.id, slot.seqNo, e.data, e.gzip, e.invokeAfter, e.quickAck);
      var r := Filled(w, PushQuery(w.s.queues, query, e.now), e.now);
      World(r.s.(auth := slot.auth),
            r.log.(submitted := w.log.submitted + [query], given := w.log.given + [e.id != 0]))
  }

  function FailStep(w: World, id: nat, now: real): World
  {
    var s := OnMessageFailed(w.s, id, now);
    World(s, w.log.(since := Stamp(w.log.since, w.s.queues, s.queues, now)))
  }

  /** An answer for a request that is not in flight, is not a state request, or does not have one byte for every
      identifier closes the connection; the request is gone from the table in every case. */
  function StateInfoStep(w: World, id: nat, count: nat): World
  {
    var m := w.s.flight.service;
    if id !in m then w.(s := w.s.(closed := true))
    else
      var q := m[id];
      var s := w.s.(flight := w.s.flight.(service := m - {id}));
      if q.kind != GetStateInfo then World(s.(closed := true), w.log.(droppedResend := w.log.droppedResend + q.ids))
      else if |q.ids| != count then World(s.(closed := true), w.log.(droppedInfo := w.log.droppedInfo + q.ids))
      else World(s, w.log.(answeredInfo := w.log.answeredInfo + q.ids))
  }

  /** A new salt from the server, valid for ten minutes. */
  function Resalted(s: State, salt: int, now: real): State
  {
    var t := ServerTime(s.auth, now);
    s.(auth := s.auth.(salt := ServerSalt(salt, t, t + 600.0), futureSalts := []))
  }

  function SetOnlineState(s: State, online: bool, isMain: bool, now: real): State
  {
    var needPing := online || !s.link.online;
    var l := s.link.(online := online, isMain := isMain);
    s.(link := l.(lastPongAt := if needPing then now - PingDisconnectDelay(l) + Rtt(l) else now,
                  lastReadAt := if needPing then now - ReadDisconnectDelay(l) + Rtt(l) else now),
       ping := PingState(0.0, 0, 0))
  }

  function FlushStep(w: World, now: real): World
  {
    var f := Flush(w.s, now);
    if f.payload.None? || f.packet.None? then w.(s := f.state)
    else World(f.state, w.log.(sent := w.log.sent + f.payload.value.queries,
                               packets := w.log.packets + [Record(f.payload.value, f.packet.value)]))
  }

  lemma FlushKeepsLink(s: State, now: real)
    ensures var l := Flush(s, now).state.link;
            l == s.link.(canSend := l.canSend) && Flush(s, now).state.closed == s.closed
  {
    hide Assemble, AfterPing, PayloadFor, SendTill, SentQueues, SentFlight, SentPing, HasSalt, NeedFutureSalts;
  }

  /** The loop run before every write. */
  function Drain(w: World, now: real): (r: World)
    requires now > 0.0 && Sound(w.s.link)
    ensures Sound(r.s.link)
    decreases Work(w.s, now)
  {
    if MustFlush(w.s, now) then
      FlushReducesWork(w.s, now);
      FlushKeepsLink(w.s, now);
      Drain(FlushStep(w, now), now)
    else w.(s := Idle(w.s, now))
  }

  /** The state after the loop's test. */
  function Looked(s: State, now: real): State
  {
    s.(auth := UpdateSalt(s.auth, now))
  }

  function TurnStep(w: World, tested: real, flushed: real): (r: World)
    requires Sound(w.s.link)
    ensures Sound(r.s.link)
  {
    if MustFlush(w.s, tested) then
      FlushKeepsLink(Looked(w.s, tested), flushed);
      FlushStep(w.(s := Looked(w.s, tested)), flushed)
    else w.(s := Idle(w.s, tested))
  }

  /** The message that binds a temporary key takes an identifier and no sequence number. */
  function BindStep(w: World, now: real): World
  {
    var auth := WithNextId(w.s.auth, now);
    World(w.s.(auth := auth), w.log.(bound := w.log.bound + [auth.lastMessageId]))
  }

  function Step(w: World, e: Event): (r: World)
    requires Sound(w.s.link) && Timed(e)
    ensures Sound(r.s.link)
  {
    if w.s.closed then w
    else
      match e
      case SendQuery(_, _, _, _, _, _) => SendQueryStep(w, e)
      case AskStateInfo(now, id) =>
        var r := Filled(w, PushInfo(w.s.queues, id, now), now);
        r.(log := r.log.(askedInfo := w.log.askedInfo + [id]))
      case AskResend(now, id) =>
        var r := Filled(w, PushResend(w.s.queues, id, now), now);
        r.(log := r.log.(askedResend := w.log.askedResend + [id]))
      case AskCancel(now, id) => Filled(w, PushCancel(w.s.queues, id, now), now)
      case Acknowledge(now, id) => Filled(w, PushAck(w.s.queues, id, now), now)
      case ForceAcks(now) => Filled(w, Session.ForceAck(w.s.queues, now), now)
      case DestroyKey => w.(s := w.s.(needDestroy := true))
      case SetOnline(now, online, isMain) => w.(s := SetOnlineState(w.s, online, isMain, now))
      case MessageFailed(now, id) => FailStep(w, id, now)
      case BadServerSalt(now, salt, id) => FailStep(w.(s := Resalted(w.s, salt, now)), id, now)
      case FutureSalts(now, schedule) =>
        if schedule == [] then w
        else w.(s := w.s.(auth := UpdateSalt(w.s.auth.(futureSalts := schedule), now)))
      case StateInfo(id, count) => StateInfoStep(w, id, count)
      case MessageIdTooHigh =>
        World(w.s.(queues := w.s.queues.(send := []), closed := true), w.log.(returned := w.s.queues.send))
      case ProtocolError => w.(s := w.s.(closed := true))
      case LinkChanged(canSend, rtt, pong, read, header) =>
        w.(s := w.s.(link := w.s.link.(canSend := canSend, measuredRtt := rtt, lastPongAt := pong, lastReadAt := read),
                     header := header))
      case AuthChanged(hasMainKey, tmpKey, diff) =>
        w.(s := w.s.(auth := w.s.auth.(hasMainKey := hasMainKey, tmpKeyExpiresAt := tmpKey, timeDifference := diff)))
      case BindKey(now) => BindStep(w, now)
      case BeforeWrite(now) => Drain(w, now)
      case Turn(tested, flushed) => TurnStep(w, tested, flushed)
  }

  /** The event submits a query under an identifier of the caller's. */
  predicate Gives(w: World, e: Event)
  {
    !w.s.closed && w.s.link.mode != HttpLongPoll && e.SendQuery? && e.id != 0
  }

  predicate Submitted(w: World, id: nat)
  {
    exists i :: 0 <= i < |w.log.submitted| && w.log.submitted[i].id == id
  }

  /** What the caller does: it submits the query that binds a key right after it was given the identifier of the binding
      message, under that identifier and once. */
  predicate AsBound(w: World, e: Event)
  {
    Gives(w, e) ==>
      && w.log.bound != [] && e.id == w.log.bound[|w.log.bound| - 1] == w.s.auth.lastMessageId
      && !Submitted(w, e.id)
  }

  /** The events that touch neither the queries, the requests nor the allocator. */
  predicate Routine(e: Event)
  {
    || e.AskCancel? || e.Acknowledge? || e.ForceAcks? || e.DestroyKey? || e.SetOnline? || e.FutureSalts?
    || e.ProtocolError? || e.LinkChanged? || e.AuthChanged?
  }

  lemma RoutineEffect(w: World, e: Event)
    requires Sound(w.s.link) && Timed(e) && Routine(e) && !w.s.closed
    ensures var r := Step(w, e);
            && r.log == w.log.(since := r.log.since) && r.s.flight == w.s.flight
            && r.s.queues.send == w.s.queues.send && r.s.queues.info == w.s.queues.info
            && r.s.queues.resend == w.s.queues.resend
            && r.s.auth.lastMessageId == w.s.auth.lastMessageId && r.s.auth.seqNo == w.s.auth.seqNo
  {
    hide Rtt;
  }

  lemma {:induction false} RequeueKeepsSend(q: Queues, kind: ServiceKind, ids: seq<nat>, now: real)
    ensures Requeue(q, kind, ids, now).send == q.send
    decreases |ids|
  {
    if ids != [] {
      var pushed := if kind == ResendAnswer then PushResend(q, ids[0], now) else PushInfo(q, ids[0], now);
      RequeueKeepsSend(pushed, kind, ids[1..], now);
    }
  }

  lemma {:induction false} FailEachKeepsSend(h: Held, ids: seq<nat>, now: real)
    ensures FailEach(h, ids, now).queues.send == h.queues.send
    decreases |ids|
  {
    if ids != [] {
      if ids[0] in h.service { RequeueKeepsSend(h.queues, h.service[ids[0]].kind, h.service[ids[0]].ids, now); }
      FailEachKeepsSend(FailInner(h, ids[0], now), ids[1..], now);
    }
  }

  predicate AllTimed(es: seq<Event>)
  {
    forall i :: 0 <= i < |es| ==> Timed(es[i])
  }

  /** The world after a run, the last event last. */
  function Run(s: State, es: seq<Event>): (r: World)
    requires Sound(s.link) && AllTimed(es)
    ensures Sound(r.s.link)
  {
    if es == [] then World(s, NOTHING_LOGGED)
    else Step(Run(s, es[..|es| - 1]), es[|es| - 1])
  }
}
