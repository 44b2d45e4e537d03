/** The drain loop of a session terminates, and nothing queued is left without a deadline. */
module SessionWakeup {
  import opened AuthData
  import opened CryptoStorer
  import opened Session

  // ---------------------------------------------------------------------------------------------------------
  // Termination of the drain loop
  // ---------------------------------------------------------------------------------------------------------

  function Flag(b: bool): nat { if b then 1 else 0 }

  function Total(q: Queues): nat
  {
    |q.send| + |q.ack| + |q.resend| + |q.cancel| + |q.info|
  }

  /** What keeps the drain loop going at a fixed time. Every flush the loop asks for makes it smaller. */
  function Work(s: State, now: real): nat
  {
    Flag(s.link.canSend && s.link.turns) + Flag(MustPing(s.link, s.ping.at, now)) + Flag(SaltsDue(s.lastSaltAt, now))
    + Flag(s.needDestroy && !s.sentDestroy) + Total(s.queues) + Flag(s.queues.deadline != 0.0)
  }

  lemma MustPingMeansMayPing(l: Link, at: real, now: real)
    requires MustPing(l, at, now)
    ensures MayPing(l, at, now)
  {
  }

  lemma QueuesShrink(q: Queues, take: nat)
    requires take <= |q.send| && take <= MAX_QUERY_COUNT
    ensures Total(SentQueues(q, take)) <= Total(q)
    ensures Total(SentQueues(q, take)) == Total(q) ==>
              take == 0 && q.ack == [] && q.resend == [] && q.cancel == [] && q.info == []
    ensures SentQueues(q, take).deadline == if AllEmpty(SentQueues(q, take)) then 0.0 else q.deadline
  {
  }

  lemma PingServed(l: Link, ping: PingState, packet: Packet, now: real)
    requires now > 0.0 && Sound(l)
    ensures var r := SentPing(ping, packet, now);
            MustPing(l, r.at, now) ==> packet.late.ping == [] && MustPing(l, ping.at, now)
  {
  }

  lemma PacketHasPing(payload: Payload, a: Auth, now: real)
    ensures Assemble(payload, a, now).packet.late.ping == [] <==> payload.ping.None?
  {
    hide AssembleEarly, AssembleLate, QueryBody, NextId;
    LateCount(payload, AssembleEarly(payload, a, now).1, now);
  }

  lemma SentReducesWork(s: State, p: Plan, payload: Payload, r: Assembled, now: real)
    requires now > 0.0 && Sound(s.link) && s.link.canSend && p.take <= |s.queues.send| && p.take <= MAX_QUERY_COUNT
    requires r.packet.late.ping != [] <==> p.ping
    requires p.destroy == (s.needDestroy && !s.sentDestroy)
    requires
      || s.link.turns
      || (MustPing(s.link, s.ping.at, now) && p.ping)
      || (SaltsDue(s.lastSaltAt, now) && p.salts)
      || p.destroy
      || (s.queues.deadline != 0.0 && (s.queues.send != [] ==> 0 < p.take))
    ensures Work(Sent(s, p, payload, r, now), now) < Work(s, now)
  {
    hide SentQueues, SentFlight, SentPing, MustPing;
    QueuesShrink(s.queues, p.take);
    PingServed(s.link, s.ping, r.packet, now);
    var t := Sent(s, p, payload, r, now);
    SamePingDelays(s.link, t.link, t.ping.at, now);
    SamePingDelays(s.link, t.link, s.ping.at, now);
    assert t.link.canSend ==> !s.link.turns;
    if s.queues.send == [] && s.queues.ack == [] && s.queues.resend == [] && s.queues.cancel == []
       && s.queues.info == [] {
      assert Total(SentQueues(s.queues, p.take)) == 0;
    }
  }

  lemma SamePingDelays(l: Link, m: Link, at: real, now: real)
    requires m == l.(canSend := m.canSend)
    ensures MustPing(l, at, now) == MustPing(m, at, now)
  {
  }

  /** With the clock fixed, a flush the loop asks for leaves strictly less work: the loop terminates in every
      mode. */
  lemma FlushReducesWork(s: State, now: real)
    requires now > 0.0 && Sound(s.link) && MustFlush(s, now)
    ensures Work(Flush(s, now).state, now) < Work(s, now)
  {
    hide Assemble, AfterPing, PayloadFor, SendTill, Sent, MustPing, MayPing, UpdateSalt;
    var p := PlanFor(s, now);
    if MustPing(s.link, s.ping.at, now) { MustPingMeansMayPing(s.link, s.ping.at, now); }
    if !NothingToSend(s, p) {
      var auth := AfterPing(s.auth, p.ping, now);
      var payload := PayloadFor(s, p, auth.lastMessageId, now);
      assert payload.ping.Some? == p.ping by { PayloadPing(s, p, auth.lastMessageId, now); }
      PacketHasPing(payload, auth, now);
      SentReducesWork(s, p, payload, Assemble(payload, auth, now), now);
    }
  }

  lemma PayloadPing(s: State, p: Plan, pingId: nat, now: real)
    requires p.take <= |s.queues.send| && p.take <= MAX_QUERY_COUNT
    ensures PayloadFor(s, p, pingId, now).ping.Some? == p.ping
  {
  }

  /** Long polling over a transport that does not take turns would never stop: the loop's condition survives
      every flush. */
  lemma LongPollNeedsTurns(s: State, now: real)
    requires now > 0.0 && s.link.mode == HttpLongPoll && !s.link.turns && MustFlush(s, now)
    ensures MustFlush(Flush(s, now).state, now)
  {
    hide Assemble, AfterPing, PayloadFor, SendTill, HasSalt, SentQueues, SentFlight, SentPing, NeedFutureSalts;
    var r := Flush(s, now).state;
    FlushKeepsSalt(s, now);
  }

  lemma FlushKeepsSalt(s: State, now: real)
    ensures var r := Flush(s, now).state;
            OnlyAdvanced(UpdateSalt(s.auth, now), r.auth) && HasSalt(r.auth, now) == HasSalt(s.auth, now)
  {
    hide Assemble, AfterPing, PayloadFor, SendTill, SentQueues, SentFlight, SentPing;
    var r := Flush(s, now).state;
    UpdateSaltIdempotent(s.auth, now);
    ScheduleDecides(UpdateSalt(s.auth, now), r.auth, now);
  }

  // ---------------------------------------------------------------------------------------------------------
  // No lost wakeup
  // ---------------------------------------------------------------------------------------------------------

  /** When each queue last became non-empty. */
  datatype Since = Since(send: real, ack: real, resend: real, cancel: real, info: real)

  ghost predicate By(deadline: real, limit: real)
  {
    deadline != 0.0 && deadline <= limit
  }

  /** Every non-empty queue has a deadline, at most its delay after it became non-empty. */
  ghost predicate Wakes(q: Queues, since: Since)
  {
    && (q.send != [] ==> By(q.deadline, since.send + QUERY_DELAY))
    && (q.ack != [] ==> By(q.deadline, since.ack + ACK_DELAY))
    && (q.resend != [] ==> By(q.deadline, since.resend + RESEND_ANSWER_DELAY))
    && (q.cancel != [] ==> By(q.deadline, since.cancel + RESEND_ANSWER_DELAY))
    && (q.info != [] ==> By(q.deadline, since.info))
  }

  function Stamp(since: Since, q: Queues, r: Queues, now: real): Since
  {
    Since(if q.send == [] && r.send != [] then now else since.send,
          if q.ack == [] && r.ack != [] then now else since.ack,
          if q.resend == [] && r.resend != [] then now else since.resend,
          if q.cancel == [] && r.cancel != [] then now else since.cancel,
          if q.info == [] && r.info != [] then now else since.info)
  }

  /** From `q` to `r` items were only added, and every queue that became non-empty at `now` moved the deadline. */
  ghost predicate Grows(q: Queues, r: Queues, now: real)
  {
    && (q.deadline != 0.0 ==> By(r.deadline, q.deadline))
    && (q.send != [] ==> r.send != []) && (q.send == [] && r.send != [] ==> By(r.deadline, now + QUERY_DELAY))
    && (q.ack != [] ==> r.ack != []) && (q.ack == [] && r.ack != [] ==> By(r.deadline, now + ACK_DELAY))
    && (q.resend != [] ==> r.resend != [])
    && (q.resend == [] && r.resend != [] ==> By(r.deadline, now + RESEND_ANSWER_DELAY))
    && (q.cancel != [] ==> r.cancel != [])
    && (q.cancel == [] && r.cancel != [] ==> By(r.deadline, now + RESEND_ANSWER_DELAY))
    && (q.info != [] ==> r.info != []) && (q.info == [] && r.info != [] ==> By(r.deadline, now))
  }

  lemma QueryGrows(q: Queues, query: Query, now: real)
    requires now > 0.0
    ensures Grows(q, PushQuery(q, query, now), now)
  {
  }

  lemma IdGrows(q: Queues, id: nat, now: real)
    requires now > 0.0
    ensures Grows(q, PushInfo(q, id, now), now) && Grows(q, PushResend(q, id, now), now)
    ensures Grows(q, PushCancel(q, id, now), now)
  {
  }

  lemma AckGrows(q: Queues, id: nat, now: real)
    requires now > 0.0
    ensures Grows(q, PushAck(q, id, now), now) && Grows(q, ForceAck(q, now), now)
  {
  }

  lemma {:induction false} RequeueGrows(q: Queues, kind: ServiceKind, ids: seq<nat>, now: real)
    requires now > 0.0
    ensures Grows(q, Requeue(q, kind, ids, now), now)
    decreases |ids|
  {
    if ids != [] {
      var r := if kind == ResendAnswer then PushResend(q, ids[0], now) else PushInfo(q, ids[0], now);
      RequeueGrows(r, kind, ids[1..], now);
    }
  }

  lemma {:induction false} FailEachGrows(h: Held, ids: seq<nat>, now: real)
    requires now > 0.0
    ensures Grows(h.queues, FailEach(h, ids, now).queues, now)
    decreases |ids|
  {
    if ids != [] {
      if ids[0] in h.service { RequeueGrows(h.queues, h.service[ids[0]].kind, h.service[ids[0]].ids, now); }
      FailEachGrows(FailInner(h, ids[0], now), ids[1..], now);
    }
  }

  /** Every way of filling the queues keeps every queue on time. */
  lemma GrowsKeepsWakes(q: Queues, r: Queues, since: Since, now: real)
    requires Wakes(q, since) && Grows(q, r, now)
    ensures Wakes(r, Stamp(since, q, r, now))
  {
  }

  /** The state in which a flush forgets the queries it leaves waiting: there is no salt to send them with, one was
      asked for less than a minute ago, and nothing else goes out. */
  predicate ForgetsQueries(s: State, now: real)
  {
    && s.queues.send != [] && !HasSalt(s.auth, now) && !SaltsDue(s.lastSaltAt, now) && s.link.mode == Tcp
    && s.queues.ack == [] && s.queues.resend == [] && s.queues.cancel == [] && s.queues.info == []
    && (s.needDestroy ==> s.sentDestroy)
  }

  /** A flush keeps every queue on time exactly unless it is made in that state. */
  lemma FlushKeepsWakes(s: State, since: Since, now: real)
    requires Wakes(s.queues, since)
    ensures Wakes(Flush(s, now).state.queues, since) <==> !ForgetsQueries(s, now)
  {
    hide Assemble, AfterPing, PayloadFor, SendTill, UpdateSalt, SentFlight, SentPing, MayPing;
    var p := PlanFor(s, now);
    NoSaltNeedsSalts(s.auth, now);
    if !NothingToSend(s, p) {
      assert Flush(s, now).state.queues == SentQueues(s.queues, p.take);
    }
  }

  lemma NoSaltNeedsSalts(a: Auth, now: real)
    ensures !HasSalt(a, now) ==> NeedFutureSalts(a, now)
  {
  }

  /** The loop tests its condition and flushes at the same time, so it never flushes in that state. */
  lemma LoopFlushKeepsWakes(s: State, since: Since, now: real)
    requires MustFlush(s, now) && Wakes(s.queues, since)
    ensures Wakes(Flush(s, now).state.queues, since)
  {
    FlushKeepsWakes(s, since, now);
  }

  /** What holds when the loop stops with the transport, the key and the salt at hand: no deadline has passed, and
      the caller is told to come back no later than any queue's time limit. */
  lemma StoppedOnTime(s: State, since: Since, now: real)
    requires !MustFlush(s, now) && Ready(s, now) && HasSalt(s.auth, now) && s.link.mode != HttpLongPoll
    requires Wakes(s.queues, since)
    ensures AllEmpty(s.queues) || now <= s.queues.deadline
    ensures !AllEmpty(s.queues) ==> FlushAt(s, now) != 0.0 && FlushAt(s, now) <= s.queues.deadline
  {
    hide UpdateSalt, HasSalt, MustPing;
  }
}
