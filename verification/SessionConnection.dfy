/** The session connection as an object. Every method is proved to do to the object's state what the functions of
    the session model do to its value. */
module SessionConnection {
  import opened Bytes
  import opened Options
  import opened AuthData
  import opened CryptoStorer
  import opened Session
  import opened SessionWakeup
  import opened SessionRuns

  // ---------------------------------------------------------------------------------------------------------
  // Assembling a packet
  // ---------------------------------------------------------------------------------------------------------

  method StoreService(present: bool, body: seq<byte>, auth: AuthDataStore, now: real) returns (messages: seq<Message>)
    modifies auth
    ensures Part(messages, auth.Value()) == Service(present, body, old(auth.Value()), now)
  {
    hide NextId, UpdateSalt;
    if !present {
      return [];
    }
    var id := auth.NextMessageId(now);
    var seqNo := auth.TakeSeqNo(false);
    return [Message(id, seqNo, body)];
  }

  method StoreCancels(cancel: seq<nat>, auth: AuthDataStore, now: real) returns (messages: seq<Message>)
    modifies auth
    ensures Part(messages, auth.Value()) == Cancels(cancel, old(auth.Value()), now)
  {
    hide Service, CancelBody;
    messages := [];
    var i := 0;
    while i < |cancel|
      invariant 0 <= i <= |cancel|
      invariant var rest := Cancels(cancel[i..], auth.Value(), now);
                Part(messages + rest.messages, rest.auth) == Cancels(cancel, old(auth.Value()), now)
    {
      ghost var rest := Cancels(cancel[i..], auth.Value(), now);
      ghost var done := messages;
      var one := StoreService(true, CancelBody(cancel[i]), auth, now);
      assert cancel[i..][1..] == cancel[i + 1..];
      messages := messages + one;
      assert messages + Cancels(cancel[i + 1..], auth.Value(), now).messages == done + rest.messages;
      i := i + 1;
    }
    assert messages + [] == messages;
  }

  method StoreEarly(p: Payload, auth: AuthDataStore, now: real) returns (early: Early)
    modifies auth
    ensures (early, auth.Value()) == AssembleEarly(p, old(auth.Value()), now)
  {
    hide Service, IdsBody, HttpWaitBody, SaltsBody, UpdateSalt;
    var ack := StoreService(p.ack != [], IdsBody(0x62d6b459, p.ack), auth, now);
    var wait := StoreService(p.httpWait.Some?, HttpWaitBody(p.httpWait), auth, now);
    var salts := StoreService(p.futureSalts > 0, SaltsBody(p.futureSalts), auth, now);
    var info := StoreService(p.stateInfo != [], IdsBody(0xda69fb52, p.stateInfo), auth, now);
    early := Early(ack, wait, salts, info);
  }

  method StoreLate(p: Payload, auth: AuthDataStore, now: real) returns (late: Late)
    modifies auth
    ensures (late, auth.Value()) == AssembleLate(p, old(auth.Value()), now)
  {
    hide Service, Cancels, IdsBody, PingBody, DestroyBody, UpdateSalt;
    var resend := StoreService(p.resend != [], IdsBody(0x7d861a08, p.resend), auth, now);
    var cancel := StoreCancels(p.cancel, auth, now);
    var destroy := StoreService(p.destroyKey, DestroyBody(), auth, now);
    var ping := StoreService(p.ping.Some?, PingBody(p.ping), auth, now);
    late := Late(resend, cancel, destroy, ping);
  }

  method BuildPacket(p: Payload, auth: AuthDataStore, now: real) returns (packet: Packet)
    modifies auth
    ensures Assembled(packet, auth.Value()) == Assemble(p, old(auth.Value()), now)
  {
    hide AssembleEarly, AssembleLate, QueryMessages, NextId, UpdateSalt;
    var early := StoreEarly(p, auth, now);
    var late := StoreLate(p, auth, now);
    packet := Packet(QueryMessages(p.queries, p.header), early, late, SingleKind(p), Count(p), 0, 0);
    if NeedsContainer(p, auth.Value(), now) {
      var id := auth.NextMessageId(now);
      var seqNo := auth.TakeSeqNo(false);
      packet := packet.(kind := Mixed, containerId := id, containerSeqNo := seqNo);
    }
  }

  /** Takes the last `size` identifiers off the queue. */
  method CutTail(ids: seq<nat>, size: nat) returns (cut: seq<nat>, kept: seq<nat>)
    ensures cut == Cut(ids, size) && kept == Kept(ids, size)
  {
    if size >= |ids| {
      return ids, [];
    }
    var newSize := |ids| - size;
    cut := [];
    for i := 0 to size
      invariant cut == ids[newSize..newSize + i]
    {
      cut := cut + [ids[newSize + i]];
    }
    assert ids[newSize..newSize + size] == ids[newSize..];
    kept := ids[..newSize];
  }

  /** Counts the queries that fit in one packet. */
  method CountQueries(queries: seq<Query>) returns (till: nat)
    ensures till == SendTill(queries, 0, 0)
  {
    var size: nat := 0;
    till := 0;
    while till < |queries| && till < MAX_QUERY_COUNT && size < MAX_QUERY_BYTES
      invariant till <= |queries| && till <= MAX_QUERY_COUNT
      invariant SendTill(queries, till, size) == SendTill(queries, 0, 0)
    {
      size := size + |queries[till].data|;
      till := till + 1;
    }
  }

  class SessionConnection {
    const auth: AuthDataStore
    var link: Link
    var header: Buffer
    var toSend: seq<Query>
    var toAck: seq<nat>
    var toResend: seq<nat>
    var toCancel: seq<nat>
    var toInfo: seq<nat>
    var forceSendAt: real
    var service: map<nat, ServiceQuery>
    var containers: map<nat, seq<nat>>
    var ping: PingState
    var lastSaltAt: real
    var needDestroy: bool
    var sentDestroy: bool
    var flushAt: real
    var closed: bool

    function QueuesView(): Queues
      reads this
    {
      Queues(toSend, toAck, toResend, toCancel, toInfo, forceSendAt)
    }

    ghost function View(): State
      reads this, auth
    {
      State(link, auth.Value(), header, QueuesView(), Flight(service, containers), ping, lastSaltAt, needDestroy,
            sentDestroy, flushAt, closed)
    }

    constructor (auth: AuthDataStore, link: Link)
      requires Fresh(auth.Value()) && Sound(link)
      ensures this.auth == auth && this.link == link && Initial(View())
    {
      this.auth, this.link, header := auth, link, [];
      toSend, toAck, toResend, toCancel, toInfo, forceSendAt := [], [], [], [], [], 0.0;
      service, containers := map[], map[];
      ping, lastSaltAt, flushAt := PingState(0.0, 0, 0), 0.0, 0.0;
      needDestroy, sentDestroy, closed := false, false, false;
    }

    method SendBeforeTime(tm: real)
      modifies this`forceSendAt
      ensures QueuesView() == (SendBefore(old(QueuesView()), tm))
    {
      if forceSendAt == 0.0 || forceSendAt > tm {
        forceSendAt := tm;
      }
    }

    method SendQuery(data: Buffer, gzip: bool, messageId: nat, invokeAfter: seq<nat>, quickAck: bool, now: real)
      returns (id: nat, query: Query)
      requires link.mode != HttpLongPoll
      modifies this`toSend, this`forceSendAt, auth
      ensures query == Query(id, NextSeqNo(old(auth.seqNo), true).0, data, gzip, invokeAfter, quickAck)
      ensures QueuesView() == PushQuery(old(QueuesView()), query, now)
      ensures messageId == 0 ==> Allocated(id, query.seqNo, auth.Value()) == Allocate(old(auth.Value()), now, true)
      ensures messageId != 0 ==> id == messageId && auth.Value() == old(auth.Value()).(seqNo := old(auth.seqNo) + 2)
    {
      hide NextId;
      id := messageId;
      if id == 0 {
        id := auth.NextMessageId(now);
      }
      var seqNo := auth.TakeSeqNo(true);
      if toSend == [] {
        SendBeforeTime(now + QUERY_DELAY);
      }
      query := Query(id, seqNo, data, gzip, invokeAfter, quickAck);
      toSend := toSend + [query];
    }

    method GetStateInfo(id: nat, now: real)
      modifies this`toInfo, this`forceSendAt
      ensures QueuesView() == (PushInfo(old(QueuesView()), id, now))
    {
      if toInfo == [] {
        SendBeforeTime(now);
      }
      toInfo := toInfo + [id];
    }

    method ResendAnswer(id: nat, now: real)
      modifies this`toResend, this`forceSendAt
      ensures QueuesView() == (PushResend(old(QueuesView()), id, now))
    {
      if toResend == [] {
        SendBeforeTime(now + RESEND_ANSWER_DELAY);
      }
      toResend := toResend + [id];
    }

    method CancelAnswer(id: nat, now: real)
      modifies this`toCancel, this`forceSendAt
      ensures QueuesView() == (PushCancel(old(QueuesView()), id, now))
    {
      if toCancel == [] {
        SendBeforeTime(now + RESEND_ANSWER_DELAY);
      }
      toCancel := toCancel + [id];
    }

    method SendAck(id: nat, now: real)
      modifies this`toAck, this`forceSendAt
      ensures QueuesView() == (PushAck(old(QueuesView()), id, now))
    {
      if toAck == [] {
        SendBeforeTime(now + ACK_DELAY);
      }
      if toAck == [] || toAck[|toAck| - 1] != id {
        toAck := toAck + [id];
        if |toAck| >= MAX_UNACKED_PACKETS {
          SendBeforeTime(now);
        }
      }
    }

    method ForceAck(now: real)
      modifies this`forceSendAt
      ensures QueuesView() == (Session.ForceAck(old(QueuesView()), now))
    {
      if toAck != [] {
        SendBeforeTime(now);
      }
    }

    method OnMessageFailedInner(id: nat, now: real)
      modifies this`toResend, this`toInfo, this`forceSendAt, this`service
      ensures Held(QueuesView(), service) == FailInner(old(Held(QueuesView(), service)), id, now)
    {
      if id !in service {
        return;
      }
      var query := service[id];
      service := service - {id};
      for i := 0 to |query.ids|
        invariant service == old(service) - {id}
        invariant Requeue(QueuesView(), query.kind, query.ids[i..], now)
                  == Requeue(old(QueuesView()), query.kind, query.ids, now)
      {
        assert query.ids[i..][1..] == query.ids[i + 1..];
        if query.kind.ResendAnswer? {
          ResendAnswer(query.ids[i], now);
        } else {
          GetStateInfo(query.ids[i], now);
        }
      }
    }

    method MessageFailed(id: nat, now: real)
      modifies this`toResend, this`toInfo, this`forceSendAt, this`service, this`sentDestroy, this`ping
      ensures var s := OnMessageFailed(old(View()), id, now);
              QueuesView() == s.queues && service == s.flight.service && ping == s.ping && sentDestroy == s.sentDestroy
    {
      hide FailInner, Requeue, AuthDataStore.Value;
      sentDestroy := false;
      if id == ping.messageId || id == ping.containerId {
        ping := PingState(0.0, 0, 0);
      }
      ghost var newPing := ping;
      var ids := if id in containers then containers[id] else [id];
      for i := 0 to |ids|
        invariant !sentDestroy && ping == newPing
        invariant FailEach(Held(QueuesView(), service), ids[i..], now)
                  == FailEach(old(Held(QueuesView(), service)), ids, now)
      {
        assert ids[i..][1..] == ids[i + 1..];
        OnMessageFailedInner(ids[i], now);
      }
    }

    method DestroyKey()
      modifies this`needDestroy
      ensures View() == old(View()).(needDestroy := true)
    {
      needDestroy := true;
    }

    method SetOnline(online: bool, isMain: bool, now: real)
      modifies this`link, this`ping
      ensures View() == SetOnlineState(old(View()), online, isMain, now)
    {
      hide AuthDataStore.Value, Rtt;
      var needPing := online || !link.online;
      link := link.(online := online, isMain := isMain);
      if needPing {
        link := link.(lastPongAt := now - PingDisconnectDelay(link) + Rtt(link),
                      lastReadAt := now - ReadDisconnectDelay(link) + Rtt(link));
      } else {
        link := link.(lastPongAt := now, lastReadAt := now);
      }
      ping := PingState(0.0, 0, 0);
    }

    /** An answer to a request for states; `count` is the number of states in it. */
    method OnStateInfo(id: nat, count: nat, ghost log: Log) returns (ids: seq<nat>, ghost after: Log)
      modifies this`service, this`closed
      ensures World(View(), after) == StateInfoStep(World(old(View()), log), id, count)
      ensures !closed ==> after == log.(answeredInfo := log.answeredInfo + ids)
    {
      hide AuthDataStore.Value;
      after := StateInfoStep(World(View(), log), id, count).log;
      if id !in service {
        closed := true;
        return [], after;
      }
      var query := service[id];
      service := service - {id};
      ids := query.ids;
      if !query.kind.GetStateInfo? || |query.ids| != count { closed := true; }
    }

    method OnBadServerSalt(salt: int, id: nat, now: real)
      modifies this`toResend, this`toInfo, this`forceSendAt, this`service, this`sentDestroy, this`ping, auth
      ensures var s := OnMessageFailed(Resalted(old(View()), salt, now), id, now);
              && QueuesView() == s.queues && service == s.flight.service && ping == s.ping
              && sentDestroy == s.sentDestroy && auth.Value() == s.auth
    {
      hide FailEach;
      auth.SetServerSalt(salt, now);
      MessageFailed(id, now);
    }

    /** The schedule is sorted newest first, kept and used at once. */
    method OnFutureSalts(salts: seq<ServerSalt>, now: real)
      modifies auth
      ensures salts == [] ==> View() == old(View())
      ensures salts != [] ==>
                var was := old(View());
                exists sorted :: NewestFirst(sorted) && multiset(sorted) == multiset(salts) &&
                                 View() == was.(auth := UpdateSalt(was.auth.(futureSalts := sorted), now))
    {
      hide UpdateSalt, NewestFirst;
      auth.SetFutureSalts(salts, now);
    }

    /** The waiting queries are handed back and the connection is closed. */
    method OnMessageIdTooHigh(ghost log: Log) returns (returned: seq<Query>, ghost after: Log)
      modifies this`toSend, this`closed
      ensures closed && toSend == [] && returned == old(toSend)
      ensures Sound(old(View()).link) && !old(closed) ==>
                World(View(), after) == Step(World(old(View()), log), MessageIdTooHigh) && after.returned == returned
    {
      hide AuthDataStore.Value;
      after := log.(returned := toSend);
      returned := toSend;
      toSend, closed := [], true;
    }

    /** The identifier for the message that binds a temporary key. */
    method EncryptedBind(now: real, ghost log: Log) returns (id: nat, ghost after: Log)
      modifies auth
      ensures World(View(), after) == BindStep(World(old(View()), log), now) && old(auth.lastMessageId) < id
    {
      hide NextId;
      id := auth.NextMessageId(now);
      after := log.(bound := log.bound + [id]);
    }

    /** Sets the time to come back at and says whether a packet must go out now. */
    method MustFlushPacket(now: real) returns (must: bool)
      modifies this`flushAt, auth
      ensures must == MustFlush(old(View()), now)
      ensures !must ==> flushAt == FlushAt(old(View()), now)
      ensures auth.Value() == if Ready(old(View()), now) then UpdateSalt(old(auth.Value()), now) else old(auth.Value())
    {
      hide UpdateSalt, HasSalt, PingMustDelay, MustPing;
      flushAt := 0.0;
      var expires := auth.tmpKeyExpiresAt;
      var hasKey := if auth.usePfs then expires.Some? && now <= expires.value else auth.hasMainKey;
      if !hasKey || !link.canSend {
        return false;
      }
      var hasSalt := auth.CheckSalt(now);
      if link.mode == HttpLongPoll {
        return hasSalt;
      }
      must := Decide(hasSalt, now);
    }

    /** The tests made once the key, the transport and the salt are known. */
    method Decide(hasSalt: bool, now: real) returns (must: bool)
      requires flushAt == 0.0
      modifies this`flushAt
      ensures must <==> if hasSalt then || (forceSendAt != 0.0 && now > forceSendAt)
                                        || MustPing(link, ping.at, now)
                                        || (needDestroy && !sentDestroy)
                        else SaltsDue(lastSaltAt, now)
      ensures !must && hasSalt ==> flushAt == Relax(Relax(0.0, forceSendAt), ping.at + PingMustDelay(link))
      ensures !must && !hasSalt ==> flushAt == Relax(0.0, lastSaltAt + 60.0)
    {
      hide PingMustDelay, MustPing, AuthDataStore.Value;
      if hasSalt && forceSendAt != 0.0 {
        if now > forceSendAt {
          return true;
        }
        flushAt := Relax(flushAt, forceSendAt);
      }
      if hasSalt {
        if MustPing(link, ping.at, now) {
          return true;
        }
        flushAt := Relax(flushAt, ping.at + PingMustDelay(link));
      }
      if !hasSalt {
        if lastSaltAt == 0.0 || lastSaltAt + 60.0 < now {
          return true;
        }
        flushAt := Relax(flushAt, lastSaltAt + 60.0);
      }
      if hasSalt && needDestroy && !sentDestroy {
        return true;
      }
      return false;
    }

    method DecidePing(now: real) returns (hasSalt: bool, sendPing: bool, pingId: nat)
      modifies this`ping, auth
      ensures hasSalt == HasSalt(old(auth.Value()), now)
      ensures sendPing == (hasSalt && MayPing(link, old(ping).at, now))
      ensures sendPing ==> pingId == auth.Value().lastMessageId
      ensures auth.Value() == AfterPing(old(auth.Value()), sendPing, now)
      ensures ping == if sendPing then old(ping).(at := now) else old(ping)
    {
      hide NextId, MayPing, UpdateSalt, HasSalt;
      hasSalt := auth.CheckSalt(now);
      pingId := 0;
      sendPing := hasSalt && MayPing(link, ping.at, now);
      if sendPing {
        ping := ping.(at := now);
        pingId := auth.NextMessageId(now);
      }
    }

    method DecideSalts(now: real) returns (salts: bool)
      modifies this`lastSaltAt, auth
      ensures salts == (link.mode != HttpLongPoll && NeedFutureSalts(old(auth.Value()), now)
                        && SaltsDue(old(lastSaltAt), now))
      ensures lastSaltAt == if salts then now else old(lastSaltAt)
      ensures auth.Value() == UpdateSalt(old(auth.Value()), now) || auth.Value() == old(auth.Value())
    {
      hide UpdateSalt, NeedFutureSalts;
      salts := false;
      if link.mode != HttpLongPoll {
        var wants := auth.WantsFutureSalts(now);
        if wants && (lastSaltAt == 0.0 || lastSaltAt + 60.0 < now) {
          lastSaltAt := now;
          salts := true;
        }
      }
    }

    /** Decides what the packet will carry; a ping and a request for salts note the time they are sent at. */
    method MakePlan(now: real) returns (p: Plan, pingId: nat)
      modifies this`ping, this`lastSaltAt, auth
      ensures p == PlanOf(link, old(auth.Value()), toSend, old(ping).at, old(lastSaltAt),
                          needDestroy && !sentDestroy, now)
      ensures p.ping ==> pingId == auth.Value().lastMessageId
      ensures auth.Value() == AfterPing(old(auth.Value()), p.ping, now)
      ensures ping == if p.ping then old(ping).(at := now) else old(ping)
      ensures lastSaltAt == if p.salts then now else old(lastSaltAt)
    {
      hide UpdateSalt, HasSalt, NeedFutureSalts, MayPing, SendTill, AfterPing, AuthDataStore.Value;
      var hasSalt, sendPing, id := DecidePing(now);
      pingId := id;
      ghost var settled := auth.Value();
      AfterPingSettled(old(auth.Value()), sendPing, now);
      var salts := DecideSalts(now);
      var till := 0;
      if hasSalt {
        till := CountQueries(toSend);
      }
      p := Plan(hasSalt, sendPing, salts, till, needDestroy && !sentDestroy);
      assert auth.Value() == settled;
    }

    /** Cuts the parts of one packet off the queues. */
    method TakeFromQueues(take: nat)
      returns (queries: seq<Query>, ack: seq<nat>, resend: seq<nat>, cancel: seq<nat>, info: seq<nat>)
      requires take <= |toSend| && take <= MAX_QUERY_COUNT
      modifies this`toSend, this`toAck, this`toResend, this`toCancel, this`toInfo, this`forceSendAt
      ensures QueuesView() == (SentQueues(old(QueuesView()), take))
      ensures queries == old(toSend)[..take] && ack == Cut(old(toAck), MAX_IDS) && resend == Cut(old(toResend), MAX_IDS)
      ensures cancel == Cut(old(toCancel), MAX_QUERY_COUNT - take) && info == Cut(old(toInfo), MAX_IDS)
    {
      hide Cut, Kept;
      queries, toSend := toSend[..take], toSend[take..];
      resend, toResend := CutTail(toResend, MAX_IDS);
      cancel, toCancel := CutTail(toCancel, MAX_QUERY_COUNT - take);
      info, toInfo := CutTail(toInfo, MAX_IDS);
      ack, toAck := CutTail(toAck, MAX_IDS);
      if toSend == [] && toAck == [] && toInfo == [] && toResend == [] && toCancel == [] {
        forceSendAt := 0.0;
      }
    }

    /** Records the requests of a sent packet so that a failure can find them again. */
    method RememberRequests(payload: Payload, packet: Packet)
      modifies this`service, this`containers
      ensures Flight(service, containers) == SentFlight(old(Flight(service, containers)), payload, packet)
    {
      var cid := packet.containerId;
      var resend, info := packet.late.resend, packet.early.stateInfo;
      if resend != [] && resend[0].id !in service {
        service := service[resend[0].id := ServiceQuery(ServiceKind.ResendAnswer, cid, payload.resend)];
      }
      if info != [] && info[0].id !in service {
        service := service[info[0].id := ServiceQuery(ServiceKind.GetStateInfo, cid, payload.stateInfo)];
      }
      if cid != 0 {
        if resend != [] {
          containers := containers[cid := (if cid in containers then containers[cid] else []) + [resend[0].id]];
        }
        if info != [] {
          containers := containers[cid := (if cid in containers then containers[cid] else []) + [info[0].id]];
        }
      }
    }

    method FlushPacket(now: real) returns (payload: Option<Payload>, packet: Option<Packet>)
      modifies this, auth
      ensures Flushed(View(), payload, packet) == Flush(old(View()), now)
    {
      hide PlanOf, PlanFor, NothingToSend, AfterPing, Assemble, SentQueues, SentFlight, SentPing, WaitFor, PingTimeout,
           Cut, AuthDataStore.Value, Flush, PayloadFor, Sent;
      ghost var was := View();
      var p, pingId := MakePlan(now);
      PlanUnfolds(was, p, now);
      if p.take == 0 && toAck == [] && !p.ping && link.mode == Tcp && !p.salts && toResend == [] && toCancel == []
         && toInfo == [] && !p.destroy {
        forceSendAt := 0.0;
        FlushNothing(was, now);
        return None, None;
      }
      payload, packet := SendPlanned(p, pingId, was, now);
    }

    /** The rest of a flush that has something to send; `was` is the state it began in. */
    method SendPlanned(p: Plan, pingId: nat, ghost was: State, now: real)
      returns (payload: Option<Payload>, packet: Option<Packet>)
      requires p == PlanFor(was, now) && !NothingToSend(was, p)
      requires auth.Value() == AfterPing(was.auth, p.ping, now) && (p.ping ==> pingId == auth.Value().lastMessageId)
      requires View() == was.(auth := auth.Value(), ping := if p.ping then was.ping.(at := now) else was.ping,
                              lastSaltAt := if p.salts then now else was.lastSaltAt)
      modifies this, auth
      ensures Flushed(View(), payload, packet) == Flush(was, now)
    {
      hide PlanOf, PlanFor, NothingToSend, AfterPing, Assemble, SentQueues, SentFlight, SentPing, WaitFor, PingTimeout,
           Cut, AuthDataStore.Value, Flush, PayloadFor, Sent;
      ghost var given := auth.Value();
      var content, built := Transmit(p, pingId, now);
      PayloadUnfolds(was, p, given.lastMessageId, now);
      FlushSomething(was, now);
      SentUnfolds(was, p, content, Assembled(built, auth.Value()), now);
      SentPingFrom(was.ping, now, content, given, now);
      SameState(View(), Sent(was, p, content, Assembled(built, auth.Value()), now));
      return Some(content), Some(built);
    }

    /** Cuts the planned parts off the queues and sends them. */
    method Transmit(p: Plan, pingId: nat, now: real) returns (content: Payload, packet: Packet)
      requires p.take <= |toSend| && p.take <= MAX_QUERY_COUNT
      modifies this`toSend, this`toAck, this`toResend, this`toCancel, this`toInfo, this`forceSendAt,
               this`link, this`service, this`containers, this`ping, this`sentDestroy, auth
      ensures content == Payload(header, old(toSend)[..p.take], Cut(old(toAck), MAX_IDS), WaitFor(old(link), now),
                                 if p.salts then 64 else 0, Cut(old(toInfo), MAX_IDS), Cut(old(toResend), MAX_IDS),
                                 Cut(old(toCancel), MAX_QUERY_COUNT - p.take), p.destroy,
                                 if p.ping then Some(Ping(pingId, PingTimeout(old(link)))) else None)
      ensures Assembled(packet, auth.Value()) == Assemble(content, old(auth.Value()), now)
      ensures QueuesView() == SentQueues(old(QueuesView()), p.take)
      ensures link == old(link).(canSend := old(link.canSend && !link.turns))
      ensures Flight(service, containers) == SentFlight(old(Flight(service, containers)), content, packet)
      ensures ping == SentPing(old(ping), packet, now)
      ensures sentDestroy == (old(sentDestroy) || p.destroy)
    {
      hide Assemble, SentQueues, SentFlight, SentPing, WaitFor, PingTimeout, Cut, AuthDataStore.Value;
      if p.destroy {
        sentDestroy := true;
      }
      var queries, ack, resend, cancel, info := TakeFromQueues(p.take);
      content := Payload(header, queries, ack, WaitFor(link, now), if p.salts then 64 else 0, info, resend, cancel,
                         p.destroy, if p.ping then Some(Ping(pingId, PingTimeout(link))) else None);
      packet := SendContent(content, now);
    }

    /** The loop run before every write stops, and leaves the object as the drained state; `log` is the record kept
        of the run so far and `after` the record it ends with. */
    method BeforeWrite(now: real, ghost log: Log) returns (ghost after: Log)
      requires now > 0.0 && Sound(link)
      modifies this, auth
      ensures World(View(), after) == Drain(World(old(View()), log), now)
      ensures !MustFlush(View(), now)
    {
      hide Flush, MustFlush, Drain, FlushAt, Ready, UpdateSalt, AuthDataStore.Value;
      ghost var w := World(View(), log);
      var must := MustFlushPacket(now);
      while must
        invariant Sound(w.s.link) && must == MustFlush(w.s, now) && View() == Tested(w.s, now, flushAt)
        invariant !must ==> flushAt == FlushAt(w.s, now)
        invariant Drain(w, now) == Drain(World(old(View()), log), now)
        decreases Work(w.s, now)
      {
        LoopStep(w, flushAt, now);
        var payload, packet := FlushPacket(now);
        w := AfterFlush(w, payload, packet, View());
        must := MustFlushPacket(now);
      }
      DrainStops(w, now);
      MustFlushOfTested(w.s, now, flushAt);
      after := w.log;
    }

    /** Builds and sends the packet and records what it carried. */
    method SendContent(content: Payload, now: real) returns (packet: Packet)
      modifies this`link, this`service, this`containers, this`ping, auth
      ensures Assembled(packet, auth.Value()) == Assemble(content, old(auth.Value()), now)
      ensures link == old(link).(canSend := old(link.canSend && !link.turns))
      ensures Flight(service, containers) == SentFlight(old(Flight(service, containers)), content, packet)
      ensures ping == SentPing(old(ping), packet, now)
    {
      hide Assemble, SentFlight, AuthDataStore.Value;
      packet := BuildPacket(content, auth, now);
      link := link.(canSend := link.canSend && !link.turns);
      RememberRequests(content, packet);
      if packet.late.ping != [] {
        ping := PingState(now, packet.late.ping[0].id, packet.containerId);
      }
    }
  }

  /** The state after the loop's test: it adopted the salt and left some time to come back at. */
  function Tested(s: State, now: real, flushAt: real): State
  {
    s.(auth := if Ready(s, now) then UpdateSalt(s.auth, now) else s.auth, flushAt := flushAt)
  }

  /** The test does not influence what the next flush does. */
  lemma FlushOfTested(s: State, now: real, flushAt: real)
    requires Ready(s, now)
    ensures var f := Flush(s, now);
            Flush(Tested(s, now, flushAt), now) == f.(state := f.state.(flushAt := flushAt))
  {
    hide Assemble, SentQueues, SentFlight, SentPing, WaitFor, PingTimeout, Cut, PlanOf, AfterPing, UpdateSalt;
    PlanOfTested(s, now);
    var t := s.(flushAt := flushAt);
    FlushIgnoresFlushAt(s, now, flushAt);
    var p := PlanFor(t, now);
    if !NothingToSend(t, p) {
      PayloadUnfolds(t, p, AfterPing(s.auth, p.ping, now).lastMessageId, now);
      PayloadUnfolds(Tested(s, now, flushAt), p, AfterPing(s.auth, p.ping, now).lastMessageId, now);
    }
  }

  lemma PlanOfTested(s: State, now: real)
    ensures var q, b := s.queues.send, s.needDestroy && !s.sentDestroy;
            PlanOf(s.link, UpdateSalt(s.auth, now), q, s.ping.at, s.lastSaltAt, b, now)
            == PlanOf(s.link, s.auth, q, s.ping.at, s.lastSaltAt, b, now)
    ensures forall ping :: AfterPing(UpdateSalt(s.auth, now), ping, now) == AfterPing(s.auth, ping, now)
  {
    hide SendTill, MayPing, NextId;
    UpdateSaltIdempotent(s.auth, now);
  }

  lemma MustFlushOfTested(s: State, now: real, flushAt: real)
    ensures MustFlush(Tested(s, now, flushAt), now) == MustFlush(s, now)
  {
    hide MustPing;
    UpdateSaltIdempotent(s.auth, now);
  }

  lemma FlushIgnoresFlushAt(s: State, now: real, flushAt: real)
    ensures var f := Flush(s, now);
            Flush(s.(flushAt := flushAt), now) == f.(state := f.state.(flushAt := flushAt))
  {
    hide Assemble, AfterPing, PlanOf, SentQueues, SentFlight, SentPing, WaitFor, PingTimeout, Cut;
  }

  lemma {:induction false} DrainIgnoresFlushAt(w: World, now: real, flushAt: real)
    requires now > 0.0 && Sound(w.s.link)
    ensures Drain(w.(s := w.s.(flushAt := flushAt)), now) == Drain(w, now)
    decreases Work(w.s, now)
  {
    hide Flush, MustPing, HasSalt, UpdateSalt;
    if MustFlush(w.s, now) {
      FlushReducesWork(w.s, now);
      FlushKeepsLink(w.s, now);
      FlushIgnoresFlushAt(w.s, now, flushAt);
      var v := FlushStep(w, now);
      assert FlushStep(w.(s := w.s.(flushAt := flushAt)), now) == v.(s := v.s.(flushAt := flushAt));
      DrainIgnoresFlushAt(v, now, flushAt);
    }
  }

  ghost function AfterFlush(w: World, payload: Option<Payload>, packet: Option<Packet>, s: State): World
  {
    if payload.None? || packet.None? then w.(s := s)
    else World(s, w.log.(sent := w.log.sent + payload.value.queries,
                         packets := w.log.packets + [Record(payload.value, packet.value)]))
  }

  /** One turn of the loop, from the tested state: less work remains and the drained world is the same. */
  lemma LoopStep(w: World, flushAt: real, now: real)
    requires now > 0.0 && Sound(w.s.link) && MustFlush(w.s, now)
    ensures var f := Flush(Tested(w.s, now, flushAt), now);
            var v := AfterFlush(w, f.payload, f.packet, f.state);
            Sound(v.s.link) && Work(v.s, now) < Work(w.s, now) && Drain(v, now) == Drain(w, now)
  {
    assert Ready(w.s, now);
    hide Flush, MustFlush, Tested, Work, Drain;
    FlushReducesWork(w.s, now);
    FlushKeepsLink(w.s, now);
    FlushOfTested(w.s, now, flushAt);
    DrainContinues(w, now);
    var v := FlushStep(w, now);
    var f := Flush(Tested(w.s, now, flushAt), now);
    assert v.s == Flush(w.s, now).state;
    assert AfterFlush(w, f.payload, f.packet, f.state) == v.(s := v.s.(flushAt := flushAt));
    hide FlushStep, AfterFlush;
    WorkIgnoresFlushAt(v.s, now, flushAt);
    DrainIgnoresFlushAt(v, now, flushAt);
  }

  lemma WorkIgnoresFlushAt(s: State, now: real, flushAt: real)
    ensures Work(s.(flushAt := flushAt), now) == Work(s, now)
  {
    hide MustPing;
  }

  lemma DrainContinues(w: World, now: real)
    requires now > 0.0 && Sound(w.s.link) && MustFlush(w.s, now)
    ensures Sound(FlushStep(w, now).s.link) && Drain(w, now) == Drain(FlushStep(w, now), now)
  {
    hide Flush, MustFlush;
    FlushKeepsLink(w.s, now);
  }

  lemma DrainStops(w: World, now: real)
    requires now > 0.0 && Sound(w.s.link) && !MustFlush(w.s, now)
    ensures Drain(w, now) == World(Tested(w.s, now, FlushAt(w.s, now)), w.log)
  {
    hide FlushAt, UpdateSalt, MustFlush;
  }

  lemma PlanUnfolds(s: State, p: Plan, now: real)
    ensures PlanFor(s, now)
            == PlanOf(s.link, s.auth, s.queues.send, s.ping.at, s.lastSaltAt, s.needDestroy && !s.sentDestroy, now)
    ensures NothingToSend(s, p) <==>
              && p.take == 0 && s.queues.ack == [] && !p.ping && s.link.mode == Tcp && !p.salts
              && s.queues.resend == [] && s.queues.cancel == [] && s.queues.info == [] && !p.destroy
  {
  }

  lemma PayloadUnfolds(s: State, p: Plan, pingId: nat, now: real)
    requires p.take <= |s.queues.send| && p.take <= MAX_QUERY_COUNT
    ensures PayloadFor(s, p, pingId, now)
            == Payload(s.header, s.queues.send[..p.take], Cut(s.queues.ack, MAX_IDS), WaitFor(s.link, now),
                       if p.salts then 64 else 0, Cut(s.queues.info, MAX_IDS), Cut(s.queues.resend, MAX_IDS),
                       Cut(s.queues.cancel, MAX_QUERY_COUNT - p.take), p.destroy,
                       if p.ping then Some(Ping(pingId, PingTimeout(s.link))) else None)
  {
    hide Cut, WaitFor, PingTimeout;
  }

  lemma FlushNothing(s: State, now: real)
    requires NothingToSend(s, PlanFor(s, now))
    ensures var p := PlanFor(s, now);
            Flush(s, now) == Flushed(s.(auth := AfterPing(s.auth, p.ping, now), queues := s.queues.(deadline := 0.0)),
                                     None, None)
  {
    hide PlanFor, AfterPing, Assemble, PayloadFor;
  }

  lemma FlushSomething(s: State, now: real)
    requires !NothingToSend(s, PlanFor(s, now))
    ensures var p := PlanFor(s, now);
            var auth := AfterPing(s.auth, p.ping, now);
            var payload := PayloadFor(s, p, auth.lastMessageId, now);
            var r := Assemble(payload, auth, now);
            Flush(s, now) == Flushed(Sent(s, p, payload, r, now), Some(payload), Some(r.packet))
  {
    hide PlanFor, AfterPing, Assemble, PayloadFor, Sent;
  }

  lemma SameState(s: State, t: State)
    requires s.link == t.link && s.auth == t.auth && s.header == t.header && s.queues == t.queues
    requires s.flight == t.flight
    requires s.ping == t.ping && s.lastSaltAt == t.lastSaltAt && s.needDestroy == t.needDestroy
    requires s.sentDestroy == t.sentDestroy && s.flushAt == t.flushAt && s.closed == t.closed
    ensures s == t
  {
  }

  lemma SentUnfolds(s: State, p: Plan, payload: Payload, r: Assembled, now: real)
    requires p.take <= |s.queues.send| && p.take <= MAX_QUERY_COUNT
    ensures var t := Sent(s, p, payload, r, now);
            && t.auth == r.auth && t.link == s.link.(canSend := s.link.canSend && !s.link.turns)
            && t.queues == SentQueues(s.queues, p.take) && t.flight == SentFlight(s.flight, payload, r.packet)
            && t.ping == SentPing(s.ping, r.packet, now) && t.lastSaltAt == (if p.salts then now else s.lastSaltAt)
            && t.sentDestroy == (s.sentDestroy || p.destroy) && t.header == s.header && t.needDestroy == s.needDestroy
            && t.flushAt == s.flushAt && t.closed == s.closed
  {
    hide SentQueues, SentFlight, SentPing;
  }

  /** Noting the time of a ping early changes nothing: the packet that carries it overwrites the whole record. */
  lemma SentPingFrom(ping: PingState, at: real, payload: Payload, a: Auth, now: real)
    ensures var packet := Assemble(payload, a, now).packet;
            payload.ping.Some? ==> SentPing(ping.(at := at), packet, now) == SentPing(ping, packet, now)
  {
    hide Assemble;
    PacketHasPing(payload, a, now);
  }

  lemma Settled(a: Auth, now: real)
    requires a.futureSalts != [] ==> a.futureSalts[|a.futureSalts| - 1].validSince >= ServerTime(a, now)
    ensures UpdateSalt(a, now) == a
  {
  }

  lemma AfterPingSettled(a: Auth, ping: bool, now: real)
    ensures var r := AfterPing(a, ping, now);
            && UpdateSalt(r, now) == r && NeedFutureSalts(r, now) == NeedFutureSalts(a, now)
  {
    hide NextId;
    var r := AfterPing(a, ping, now);
    UpdateSaltIdempotent(a, now);
    Settled(r, now);
    ScheduleDecides(UpdateSalt(a, now), r, now);
  }
}
