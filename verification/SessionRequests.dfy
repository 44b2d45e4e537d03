/** No service request is lost: what was asked for is queued, in flight or answered, over every run. */
module SessionRequests {
  import opened AuthData
  import opened CryptoStorer
  import opened Session
  import opened SessionWakeup
  import opened SessionRuns

  // ---------------------------------------------------------------------------------------------------------
  // The identifiers held by the requests in flight
  // ---------------------------------------------------------------------------------------------------------

  ghost function IdsOf(q: ServiceQuery, kind: ServiceKind): multiset<nat>
  {
    if q.kind == kind then multiset(q.ids) else multiset{}
  }

  ghost function InFlight(m: map<nat, ServiceQuery>, kind: ServiceKind): multiset<nat>
    decreases |m|
  {
    if m == map[] then multiset{}
    else IdsOf(m[AnyKey(m)], kind) + InFlight(m - {AnyKey(m)}, kind)
  }

  ghost function AnyKey(m: map<nat, ServiceQuery>): (k: nat)
    requires m != map[]
    ensures k in m
  {
    var k :| k in m; k
  }

  /** The order in which the table is read does not matter. */
  lemma {:induction false} InFlightWithout(m: map<nat, ServiceQuery>, k: nat, kind: ServiceKind)
    requires k in m
    ensures InFlight(m, kind) == IdsOf(m[k], kind) + InFlight(m - {k}, kind)
    decreases |m|
  {
    hide IdsOf;
    var j := AnyKey(m);
    if j != k {
      InFlightWithout(m - {j}, k, kind);
      InFlightWithout(m - {k}, j, kind);
      assert m - {j} - {k} == m - {k} - {j};
    }
  }

  lemma InFlightWith(m: map<nat, ServiceQuery>, k: nat, q: ServiceQuery, kind: ServiceKind)
    requires k !in m
    ensures InFlight(m[k := q], kind) == IdsOf(q, kind) + InFlight(m, kind)
  {
    InFlightWithout(m[k := q], k, kind);
    assert m[k := q] - {k} == m;
  }

  // ---------------------------------------------------------------------------------------------------------
  // What is owed: queued or in flight
  // ---------------------------------------------------------------------------------------------------------

  ghost function Owed(h: Held, kind: ServiceKind): multiset<nat>
  {
    (if kind == GetStateInfo then multiset(h.queues.info) else multiset(h.queues.resend)) + InFlight(h.service, kind)
  }

  lemma {:induction false} RequeueAdds(q: Queues, kind: ServiceKind, ids: seq<nat>, now: real)
    ensures var r := Requeue(q, kind, ids, now);
            && multiset(r.info) == multiset(q.info) + (if kind == GetStateInfo then multiset(ids) else multiset{})
            && multiset(r.resend) == multiset(q.resend) + (if kind == ResendAnswer then multiset(ids) else multiset{})
    decreases |ids|
  {
    if ids != [] {
      var pushed := if kind == ResendAnswer then PushResend(q, ids[0], now) else PushInfo(q, ids[0], now);
      RequeueAdds(pushed, kind, ids[1..], now);
      assert ids == [ids[0]] + ids[1..];
    }
  }

  /** A failure notice moves identifiers back to their queue; a repeated one finds nothing to move. */
  lemma FailInnerKeepsOwed(h: Held, id: nat, now: real, kind: ServiceKind)
    ensures Owed(FailInner(h, id, now), kind) == Owed(h, kind)
  {
    hide InFlight, Requeue;
    if id in h.service {
      InFlightWithout(h.service, id, kind);
      RequeueAdds(h.queues, h.service[id].kind, h.service[id].ids, now);
    }
  }

  lemma {:induction false} FailEachKeepsOwed(h: Held, ids: seq<nat>, now: real, kind: ServiceKind)
    ensures Owed(FailEach(h, ids, now), kind) == Owed(h, kind)
    ensures FailEach(h, ids, now).service.Keys <= h.service.Keys
    decreases |ids|
  {
    hide Owed, Requeue;
    if ids != [] {
      FailInnerKeepsOwed(h, ids[0], now, kind);
      FailEachKeepsOwed(FailInner(h, ids[0], now), ids[1..], now, kind);
    }
  }

  // ---------------------------------------------------------------------------------------------------------
  // A flush moves identifiers from the queues into flight
  // ---------------------------------------------------------------------------------------------------------

  ghost predicate KeysIssued(m: map<nat, ServiceQuery>, last: nat)
  {
    forall k :: k in m ==> k <= last
  }

  lemma CutKept(ids: seq<nat>, size: nat)
    ensures multiset(Cut(ids, size)) + multiset(Kept(ids, size)) == multiset(ids)
    ensures Cut(ids, size) == [] && 0 < size ==> ids == []
  {
    if size < |ids| {
      assert ids == ids[..|ids| - size] + ids[|ids| - size..];
    }
  }

  /** The two requests of a packet take identifiers above everything issued before, the state request first. */
  lemma RequestIds(p: Payload, a: Auth, now: real)
    ensures var r := Assemble(p, a, now);
            var info, resend := r.packet.early.stateInfo, r.packet.late.resend;
            && |info| == One(p.stateInfo != []) && |resend| == One(p.resend != [])
            && (info != [] ==> a.lastMessageId < info[0].id <= r.auth.lastMessageId)
            && (resend != [] ==> a.lastMessageId < resend[0].id <= r.auth.lastMessageId)
            && (info != [] && resend != [] ==> info[0].id < resend[0].id)
  {
    hide AssembleEarly, AssembleLate, QueryMessages;
    EarlyInfoId(p, a, now);
    LateResendId(p, AssembleEarly(p, a, now).1, now);
  }

  lemma EarlyInfoId(p: Payload, a: Auth, now: real)
    ensures var (e, b) := AssembleEarly(p, a, now);
            && |e.stateInfo| == One(p.stateInfo != [])
            && (e.stateInfo != [] ==> a.lastMessageId < e.stateInfo[0].id <= b.lastMessageId)
  {
    hide Service, IdsBody, HttpWaitBody, SaltsBody;
  }

  lemma LateResendId(p: Payload, a: Auth, now: real)
    ensures var (l, b) := AssembleLate(p, a, now);
            && |l.resend| == One(p.resend != [])
            && (l.resend != [] ==> a.lastMessageId < l.resend[0].id <= b.lastMessageId)
  {
    hide Service, IdsBody, PingBody, Cancels;
  }

  lemma RememberAdds(m: map<nat, ServiceQuery>, messages: seq<Message>, q: ServiceQuery, kind: ServiceKind)
    requires |messages| == One(q.ids != []) && (messages != [] ==> messages[0].id !in m)
    ensures InFlight(Remember(m, messages, q), kind) == InFlight(m, kind) + IdsOf(q, kind)
  {
    if messages != [] { InFlightWith(m, messages[0].id, q, kind); }
  }

  lemma RememberKeys(m: map<nat, ServiceQuery>, messages: seq<Message>, q: ServiceQuery, id: nat)
    requires id !in m && (messages != [] ==> messages[0].id != id)
    ensures id !in Remember(m, messages, q)
  {
  }

  /** The packet's two requests have identifiers above `last`, and different ones. */
  ghost predicate FreshRequests(payload: Payload, packet: Packet, last: nat)
  {
    var info, resend := packet.early.stateInfo, packet.late.resend;
    && |info| == One(payload.stateInfo != []) && |resend| == One(payload.resend != [])
    && (info != [] ==> last < info[0].id) && (resend != [] ==> last < resend[0].id)
    && (info != [] && resend != [] ==> info[0].id != resend[0].id)
  }

  /** Identifiers are fresh, so adding the requests to the table never meets a key that is taken. */
  lemma SentInFlight(f: Flight, payload: Payload, packet: Packet, last: nat, kind: ServiceKind)
    requires KeysIssued(f.service, last) && FreshRequests(payload, packet, last)
    ensures InFlight(SentFlight(f, payload, packet).service, kind)
            == InFlight(f.service, kind) + (if kind == GetStateInfo then multiset(payload.stateInfo)
                                            else multiset(payload.resend))
  {
    hide InFlight, Remember;
    var resend := ServiceQuery(ResendAnswer, packet.containerId, payload.resend);
    var info := ServiceQuery(GetStateInfo, packet.containerId, payload.stateInfo);
    RememberAdds(f.service, packet.late.resend, resend, kind);
    if packet.early.stateInfo != [] {
      RememberKeys(f.service, packet.late.resend, resend, packet.early.stateInfo[0].id);
    }
    RememberAdds(Remember(f.service, packet.late.resend, resend), packet.early.stateInfo, info, kind);
  }

  /** Whatever a flush cuts from a queue is in flight afterwards. */
  lemma SentKeepsOwed(q: Queues, f: Flight, take: nat, payload: Payload, packet: Packet, last: nat, kind: ServiceKind)
    requires take <= |q.send| && take <= MAX_QUERY_COUNT && KeysIssued(f.service, last)
    requires payload.stateInfo == Cut(q.info, MAX_IDS) && payload.resend == Cut(q.resend, MAX_IDS)
    requires FreshRequests(payload, packet, last)
    ensures Owed(Held(SentQueues(q, take), SentFlight(f, payload, packet).service), kind)
            == Owed(Held(q, f.service), kind)
  {
    hide InFlight, Cut, Kept, SentFlight, FreshRequests;
    if kind == GetStateInfo { CutKept(q.info, MAX_IDS); } else { CutKept(q.resend, MAX_IDS); }
    SentInFlight(f, payload, packet, last, kind);
  }

  lemma SentKeys(f: Flight, payload: Payload, packet: Packet, last: nat, newLast: nat)
    requires KeysIssued(f.service, last) && last <= newLast
    requires packet.early.stateInfo != [] ==> packet.early.stateInfo[0].id <= newLast
    requires packet.late.resend != [] ==> packet.late.resend[0].id <= newLast
    ensures KeysIssued(SentFlight(f, payload, packet).service, newLast)
  {
  }

  ghost function HeldBy(s: State): Held
  {
    Held(s.queues, s.flight.service)
  }

  lemma FlushKeepsOwed(s: State, now: real, kind: ServiceKind)
    requires KeysIssued(s.flight.service, s.auth.lastMessageId)
    ensures var r := Flush(s, now).state;
            && Owed(HeldBy(r), kind) == Owed(HeldBy(s), kind)
            && KeysIssued(r.flight.service, r.auth.lastMessageId)
  {
    hide Assemble, AfterPing, SendTill, SentQueues, SentFlight, SentPing, HasSalt, NeedFutureSalts, WaitFor, Cut,
        InFlight;
    var p := PlanFor(s, now);
    if !NothingToSend(s, p) {
      var auth := AfterPing(s.auth, p.ping, now);
      var payload := PayloadFor(s, p, auth.lastMessageId, now);
      var r := Assemble(payload, auth, now);
      RequestIds(payload, auth, now);
      SentKeepsOwed(s.queues, s.flight, p.take, payload, r.packet, auth.lastMessageId, kind);
      SentKeys(s.flight, payload, r.packet, auth.lastMessageId, r.auth.lastMessageId);
    }
  }

  // ---------------------------------------------------------------------------------------------------------
  // Whole runs
  // ---------------------------------------------------------------------------------------------------------

  ghost predicate Accounted(w: World)
  {
    && multiset(w.log.askedInfo)
       == Owed(HeldBy(w.s), GetStateInfo) + multiset(w.log.answeredInfo) + multiset(w.log.droppedInfo)
    && multiset(w.log.askedResend) == Owed(HeldBy(w.s), ResendAnswer) + multiset(w.log.droppedResend)
    && (w.log.droppedInfo + w.log.droppedResend != [] ==> w.s.closed)
    && KeysIssued(w.s.flight.service, w.s.auth.lastMessageId)
  }

  lemma FlushStepAccounted(w: World, now: real)
    requires Accounted(w)
    ensures Accounted(FlushStep(w, now))
  {
    hide Flush, Owed, KeysIssued;
    FlushKeepsOwed(w.s, now, GetStateInfo);
    FlushKeepsOwed(w.s, now, ResendAnswer);
    FlushKeepsLink(w.s, now);
  }

  lemma {:induction false} DrainAccounted(w: World, now: real)
    requires now > 0.0 && Sound(w.s.link) && Accounted(w)
    ensures Accounted(Drain(w, now))
    decreases Work(w.s, now)
  {
    hide Flush, MustFlush, Owed, KeysIssued;
    if MustFlush(w.s, now) {
      FlushReducesWork(w.s, now);
      FlushKeepsLink(w.s, now);
      FlushStepAccounted(w, now);
      DrainAccounted(FlushStep(w, now), now);
    }
  }

  lemma TurnAccounted(w: World, tested: real, flushed: real)
    requires Sound(w.s.link) && Accounted(w)
    ensures Accounted(TurnStep(w, tested, flushed))
  {
    hide FlushStep, MustFlush, UpdateSalt, Accounted;
    var v := w.(s := if MustFlush(w.s, tested) then Looked(w.s, tested) else Idle(w.s, tested));
    LookKeepsIds(w.s, tested);
    UntouchedAccounted(w, v);
    if MustFlush(w.s, tested) { FlushStepAccounted(v, flushed); }
  }

  lemma LookKeepsIds(s: State, now: real)
    ensures Looked(s, now).auth.lastMessageId == Idle(s, now).auth.lastMessageId == s.auth.lastMessageId
  {
  }

  lemma FailAccounted(w: World, id: nat, now: real)
    requires Accounted(w)
    ensures Accounted(FailStep(w, id, now))
  {
    hide FailEach, Owed;
    var f := w.s.flight;
    var ids := if id in f.containers then f.containers[id] else [id];
    FailEachKeepsOwed(HeldBy(w.s), ids, now, GetStateInfo);
    FailEachKeepsOwed(HeldBy(w.s), ids, now, ResendAnswer);
  }

  /** Whatever leaves the two queues and the table alone keeps the account. */
  lemma UntouchedAccounted(w: World, r: World)
    requires Accounted(w)
    requires r.s.queues.info == w.s.queues.info && r.s.queues.resend == w.s.queues.resend
    requires r.s.flight.service == w.s.flight.service && w.s.auth.lastMessageId <= r.s.auth.lastMessageId
    requires r.log.askedInfo == w.log.askedInfo && r.log.answeredInfo == w.log.answeredInfo
    requires r.log.droppedInfo == w.log.droppedInfo && r.log.askedResend == w.log.askedResend
    requires r.log.droppedResend == w.log.droppedResend && (w.s.closed ==> r.s.closed)
    ensures Accounted(r)
  {
    hide InFlight;
    assert Owed(HeldBy(r.s), GetStateInfo) == Owed(HeldBy(w.s), GetStateInfo);
    assert Owed(HeldBy(r.s), ResendAnswer) == Owed(HeldBy(w.s), ResendAnswer);
  }

  /** Taking a request out of the table takes its identifiers out of what is owed. */
  lemma RemovedOwed(h: Held, id: nat, kind: ServiceKind)
    requires id in h.service
    ensures Owed(h, kind) == Owed(h.(service := h.service - {id}), kind) + IdsOf(h.service[id], kind)
  {
    hide InFlight;
    InFlightWithout(h.service, id, kind);
  }

  lemma StateInfoAccounted(w: World, id: nat, count: nat)
    requires Accounted(w) && !w.s.closed
    ensures Accounted(StateInfoStep(w, id, count))
  {
    hide Owed;
    if id in w.s.flight.service {
      RemovedOwed(HeldBy(w.s), id, GetStateInfo);
      RemovedOwed(HeldBy(w.s), id, ResendAnswer);
      var r := StateInfoStep(w, id, count);
      assert HeldBy(r.s) == HeldBy(w.s).(service := w.s.flight.service - {id});
    }
  }

  lemma PushedInfoOwed(h: Held, id: nat, now: real)
    ensures var r := h.(queues := PushInfo(h.queues, id, now));
            && Owed(r, GetStateInfo) == Owed(h, GetStateInfo) + multiset{id}
            && Owed(r, ResendAnswer) == Owed(h, ResendAnswer)
  {
    hide InFlight;
  }

  lemma PushedResendOwed(h: Held, id: nat, now: real)
    ensures var r := h.(queues := PushResend(h.queues, id, now));
            && Owed(r, ResendAnswer) == Owed(h, ResendAnswer) + multiset{id}
            && Owed(r, GetStateInfo) == Owed(h, GetStateInfo)
  {
    hide InFlight;
  }

  lemma AskAccounted(w: World, e: Event)
    requires Sound(w.s.link) && Timed(e) && Accounted(w) && !w.s.closed
    requires e.AskStateInfo? || e.AskResend?
    ensures Accounted(Step(w, e))
  {
    hide Owed, Drain, PushInfo, PushResend;
    PushedInfoOwed(HeldBy(w.s), e.id, e.now);
    PushedResendOwed(HeldBy(w.s), e.id, e.now);
  }

  lemma SendQueryAccounted(w: World, e: Event)
    requires e.SendQuery? && Accounted(w)
    ensures Accounted(SendQueryStep(w, e))
  {
    hide Accounted, NextId;
    UntouchedAccounted(w, SendQueryStep(w, e));
  }

  lemma StepAccounted(w: World, e: Event)
    requires Sound(w.s.link) && Timed(e) && Accounted(w)
    ensures Accounted(Step(w, e))
  {
    hide Accounted;
    if w.s.closed {
    } else if Routine(e) {
      hide Step;
      RoutineEffect(w, e);
      UntouchedAccounted(w, Step(w, e));
    } else {
      hide Drain, FailStep, StateInfoStep, SendQueryStep, TurnStep, NextId;
      match e
      case SendQuery(_, _, _, _, _, _) => SendQueryAccounted(w, e);
      case AskStateInfo(_, _) => AskAccounted(w, e);
      case AskResend(_, _) => AskAccounted(w, e);
      case MessageFailed(now, id) => FailAccounted(w, id, now);
      case BadServerSalt(now, salt, id) =>
        var v := w.(s := Resalted(w.s, salt, now));
        UntouchedAccounted(w, v);
        FailAccounted(v, id, now);
      case StateInfo(id, count) => StateInfoAccounted(w, id, count);
      case BeforeWrite(now) => DrainAccounted(w, now);
      case Turn(tested, flushed) => TurnAccounted(w, tested, flushed);
      case BindKey(now) => UntouchedAccounted(w, Step(w, e));
      case MessageIdTooHigh => UntouchedAccounted(w, Step(w, e));
      case _ =>
    }
  }

  /** Over every run, the identifiers whose state was asked for are exactly those still queued, those in flight and
      those answered, and the identifiers asked to be resent are exactly those queued and those in flight; only a
      run that an improper answer has closed may have dropped any. */
  lemma {:induction false} RequestsConserved(s: State, es: seq<Event>)
    requires Initial(s) && AllTimed(es)
    ensures Accounted(Run(s, es))
  {
    hide Step;
    if es != [] {
      RequestsConserved(s, es[..|es| - 1]);
      StepAccounted(Run(s, es[..|es| - 1]), es[|es| - 1]);
    }
  }
}
