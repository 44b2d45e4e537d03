/** The packets a session sends: their size limits, the order of their messages, and the uniqueness of every
    identifier, over every run. */
module SessionPackets {
  import opened Bytes
  import opened Options
  import opened AuthData
  import opened CryptoStorer
  import opened Session
  import opened SessionWakeup
  import opened SessionRuns
  import SessionTheorems

  // ---------------------------------------------------------------------------------------------------------
  // Size limits
  // ---------------------------------------------------------------------------------------------------------

  /** A container holds at most 1000 queries and cancellations together and at most 8192 identifiers of each of the
      other kinds. */
  ghost predicate WithinLimits(p: Payload)
  {
    && |p.queries| + |p.cancel| <= MAX_QUERY_COUNT
    && |p.ack| <= MAX_IDS && |p.stateInfo| <= MAX_IDS && |p.resend| <= MAX_IDS
  }

  ghost function DataSize(queries: seq<Query>): nat
  {
    if queries == [] then 0 else |queries[0].data| + DataSize(queries[1..])
  }

  lemma {:induction false} DataSizeAppend(a: seq<Query>, b: seq<Query>)
    ensures DataSize(a + b) == DataSize(a) + DataSize(b)
  {
    if a == [] {
      assert a + b == b;
    } else {
      assert (a + b)[1..] == a[1..] + b;
      DataSizeAppend(a[1..], b);
    }
  }

  /** The taken queries are the longest prefix of at most 1000 whose data without the last one stays below 2^15
      bytes. */
  lemma {:induction false} TakenQueries(queries: seq<Query>, till: nat, size: nat)
    requires till <= |queries| && till <= MAX_QUERY_COUNT && size == DataSize(queries[..till])
    requires 0 < till ==> DataSize(queries[..till - 1]) < MAX_QUERY_BYTES
    ensures var n := SendTill(queries, till, size);
            && (0 < n ==> DataSize(queries[..n - 1]) < MAX_QUERY_BYTES)
            && (n < |queries| && n < MAX_QUERY_COUNT ==> MAX_QUERY_BYTES <= DataSize(queries[..n]))
    decreases |queries| - till
  {
    if till < |queries| && till < MAX_QUERY_COUNT && size < MAX_QUERY_BYTES {
      OneMoreSize(queries, till);
      TakenQueries(queries, till + 1, size + |queries[till].data|);
    }
  }

  lemma OneMoreSize(queries: seq<Query>, till: nat)
    requires till < |queries|
    ensures DataSize(queries[..till + 1]) == DataSize(queries[..till]) + |queries[till].data|
  {
    assert queries[..till + 1] == queries[..till] + [queries[till]];
    DataSizeAppend(queries[..till], [queries[till]]);
    assert [queries[till]][1..] == [];
  }

  // ---------------------------------------------------------------------------------------------------------
  // Chains of queries
  // ---------------------------------------------------------------------------------------------------------

  /** The queries took their identifiers in order, none above what was issued so far. */
  ghost predicate QueryChain(queries: seq<Query>, last: (nat, nat))
  {
    Chain(QueryMessages(queries, []), (0, 0), last)
  }

  lemma ChainIgnoresBodies(ms: seq<Message>, ns: seq<Message>, x: (nat, nat), y: (nat, nat))
    requires Chain(ms, x, y) && |ms| == |ns|
    requires forall i :: 0 <= i < |ms| ==> ns[i] == ms[i].(body := ns[i].body)
    ensures Chain(ns, x, y)
  {
    forall i | 0 <= i < |ns| ensures InRange(ns[i], x, y) { assert InRange(ms[i], x, y); }
    forall i, j | 0 <= i < j < |ns| ensures Precedes(ns[i], ns[j]) { assert Precedes(ms[i], ms[j]); }
  }

  lemma ChainPart(ms: seq<Message>, lo: nat, hi: nat, x: (nat, nat), y: (nat, nat))
    requires Chain(ms, x, y) && lo <= hi <= |ms|
    ensures Chain(ms[lo..hi], x, y)
  {
    forall i | 0 <= i < hi - lo ensures InRange(ms[lo..hi][i], x, y) { assert InRange(ms[lo + i], x, y); }
    forall i, j | 0 <= i < j < hi - lo ensures Precedes(ms[lo..hi][i], ms[lo..hi][j]) {
      assert Precedes(ms[lo + i], ms[lo + j]);
    }
  }

  lemma QueryChainPart(queries: seq<Query>, lo: nat, hi: nat, header: Buffer, last: (nat, nat))
    requires QueryChain(queries, last) && lo <= hi <= |queries|
    ensures Chain(QueryMessages(queries[lo..hi], header), (0, 0), last)
  {
    hide Chain, QueryBody;
    var ms := QueryMessages(queries, []);
    ChainPart(ms, lo, hi, (0, 0), last);
    ChainIgnoresBodies(ms[lo..hi], QueryMessages(queries[lo..hi], header), (0, 0), last);
  }

  lemma ChainLater(ms: seq<Message>, x: (nat, nat), y: (nat, nat), z: (nat, nat))
    requires Chain(ms, x, y) && y.0 <= z.0 && y.1 <= z.1
    ensures Chain(ms, x, z)
  {
    forall i | 0 <= i < |ms| ensures InRange(ms[i], x, z) { assert InRange(ms[i], x, y); }
  }

  lemma QueryChainPush(queries: seq<Query>, query: Query, a: Auth, now: real)
    requires Fresh(a) && QueryChain(queries, Position(a))
    requires var slot := Allocate(a, now, true); query.id == slot.id && query.seqNo == slot.seqNo
    ensures QueryChain(queries + [query], Position(Allocate(a, now, true).auth))
  {
    hide NextId, QueryBody;
    AllocateAdvances(a, now, true);
    var ms := QueryMessages(queries, []);
    var m := Message(query.id, query.seqNo, QueryBody(query, []));
    var slot := Allocate(a, now, true);
    assert QueryMessages(queries + [query], []) == ms + [m];
    OneChain(m, Position(a), Position(slot.auth));
    ChainAppend(ms, [m], (0, 0), Position(a), Position(slot.auth));
  }

  /** A query under a given identifier keeps the chain if and only if the identifier has been issued and is above
      that of the last query. */
  lemma QueryChainGiven(queries: seq<Query>, query: Query, a: Auth)
    requires Fresh(a) && QueryChain(queries, Position(a))
    requires query.id > 0 && query.seqNo == NextSeqNo(a.seqNo, true).0
    ensures QueryChain(queries + [query], (a.lastMessageId, NextSeqNo(a.seqNo, true).1)) <==>
              query.id <= a.lastMessageId && (queries == [] || queries[|queries| - 1].id < query.id)
  {
    hide QueryBody;
    var ms, m := QueryMessages(queries, []), Message(query.id, query.seqNo, QueryBody(query, []));
    var next := (a.lastMessageId, NextSeqNo(a.seqNo, true).1);
    var longer := QueryMessages(queries + [query], []);
    assert longer == ms + [m];
    assert longer[|ms|] == m;
    if query.id <= a.lastMessageId && (queries == [] || queries[|queries| - 1].id < query.id) {
      ChainExtends(ms, m, Position(a), next);
    }
    if Chain(longer, (0, 0), next) {
      assert InRange(longer[|ms|], (0, 0), next);
      if queries != [] { assert Precedes(longer[|ms| - 1], longer[|ms|]); }
    }
  }

  lemma ChainExtends(ms: seq<Message>, m: Message, x: (nat, nat), y: (nat, nat))
    requires Chain(ms, (0, 0), x) && InRange(m, (0, 0), y) && x.0 <= y.0 && x.1 <= y.1 && x.1 <= m.seqNo
    requires ms == [] || ms[|ms| - 1].id < m.id
    ensures Chain(ms + [m], (0, 0), y)
  {
    var longer := ms + [m];
    forall i | 0 <= i < |longer| ensures InRange(longer[i], (0, 0), y) {
      if i < |ms| { assert InRange(ms[i], (0, 0), x); }
    }
    forall i, j | 0 <= i < j < |longer| ensures Precedes(longer[i], longer[j]) {
      assert InRange(ms[i], (0, 0), x);
      if j < |ms| {
        assert Precedes(ms[i], ms[j]);
      } else if i < |ms| - 1 {
        assert Precedes(ms[i], ms[|ms| - 1]);
      }
    }
  }

  lemma OneChain(m: Message, x: (nat, nat), y: (nat, nat))
    requires InRange(m, x, y)
    ensures Chain([m], x, y)
  {
  }

  // ---------------------------------------------------------------------------------------------------------
  // Records
  // ---------------------------------------------------------------------------------------------------------

  /** The messages of a sent packet, in storing order, increase in identifier with the sequence numbers in step, and
      a container's identifier is above all of them. */
  ghost predicate InOrder(p: Packet)
  {
    var ms := Inner(p);
    && (forall i, j :: 0 <= i < j < |ms| ==> Precedes(ms[i], ms[j]))
    && (p.kind == Mixed ==> forall i :: 0 <= i < |ms| ==> ms[i].id < p.containerId && ms[i].seqNo <= p.containerSeqNo)
  }

  ghost predicate RecordSound(r: Record, ordered: bool)
  {
    WithinLimits(r.payload) && r.packet.count == |Inner(r.packet)| && r.packet.kind != Unreachable
    && (ordered ==> InOrder(r.packet))
  }

  /** All packets are within their limits; if `ordered`, the messages of every packet are in order and so are the
      waiting queries, none of them above what was issued. */
  ghost predicate Packed(w: World, ordered: bool)
  {
    && Fresh(w.s.auth)
    && (ordered ==> QueryChain(w.s.queues.send, Position(w.s.auth)))
    && (forall i :: 0 <= i < |w.log.packets| ==> RecordSound(w.log.packets[i], ordered))
  }

  /** A given identifier has been issued and is above that of the last waiting query. */
  predicate InTurn(w: World, e: Event)
  {
    Gives(w, e) ==>
      && e.id <= w.s.auth.lastMessageId
      && (w.s.queues.send == [] || w.s.queues.send[|w.s.queues.send| - 1].id < e.id)
  }

  lemma UpdateKeepsFresh(a: Auth, ping: bool, now: real)
    requires Fresh(a)
    ensures var r := AfterPing(a, ping, now);
            Fresh(r) && a.lastMessageId <= r.lastMessageId && a.seqNo == r.seqNo
  {
  }

  lemma PayloadCounts(s: State, p: Plan, pingId: nat, now: real)
    requires p == PlanFor(s, now) && !NothingToSend(s, p)
    ensures 0 < Count(PayloadFor(s, p, pingId, now))
  {
    hide HasSalt, NeedFutureSalts, SendTill, PingTimeout, MayPing;
  }

  lemma AssembledRecord(payload: Payload, auth: Auth, now: real, ordered: bool)
    requires Fresh(auth) && WithinLimits(payload) && 0 < Count(payload)
    requires ordered ==> Chain(QueryMessages(payload.queries, payload.header), (0, 0), Position(auth))
    ensures RecordSound(Record(payload, Assemble(payload, auth, now).packet), ordered)
  {
    hide Assemble, Count, Fresh, WithinLimits;
    KindAndCount(payload, auth, now);
    if ordered {
      PacketChain(payload, auth, now);
      var packet := Assemble(payload, auth, now).packet;
      forall i | 0 <= i < |Inner(packet)| ensures Inner(packet)[i] in Inner(packet) {}
    }
  }

  lemma {:induction false} CancelsFresh(cancel: seq<nat>, a: Auth, now: real)
    requires Fresh(a)
    ensures Fresh(Cancels(cancel, a, now).auth) && a.seqNo == Cancels(cancel, a, now).auth.seqNo
    decreases |cancel|
  {
    CancelsChain(cancel, a, now);
    if cancel != [] {
      ServiceChain(true, CancelBody(cancel[0]), a, now);
      CancelsFresh(cancel[1..], Service(true, CancelBody(cancel[0]), a, now).auth, now);
    }
  }

  /** Only queries move the sequence number. */
  lemma AssembleFresh(p: Payload, a: Auth, now: real)
    requires Fresh(a)
    ensures var r := Assemble(p, a, now).auth;
            Fresh(r) && a.lastMessageId <= r.lastMessageId && a.seqNo == r.seqNo
  {
    hide QueryMessages, IdsBody, PingBody, HttpWaitBody, Cancels, NextId, Fresh;
    EarlyFresh(p, a, now);
    LateFresh(p, AssembleEarly(p, a, now).1, now);
    hide AssembleEarly, AssembleLate;
    AllocateAdvances(AssembleInner(p, a, now).auth, now, false);
  }

  lemma ServiceFresh(present: bool, body: seq<byte>, a: Auth, now: real)
    requires Fresh(a)
    ensures var r := Service(present, body, a, now).auth; Fresh(r) && a.seqNo == r.seqNo
  {
    hide NextId;
    AllocateAdvances(a, now, false);
  }

  lemma EarlyFresh(p: Payload, a: Auth, now: real)
    requires Fresh(a)
    ensures var r := AssembleEarly(p, a, now).1; Fresh(r) && a.seqNo == r.seqNo
  {
    hide Service, IdsBody, HttpWaitBody, SaltsBody, Fresh;
    var ack := Service(p.ack != [], IdsBody(0x62d6b459, p.ack), a, now);
    ServiceFresh(p.ack != [], IdsBody(0x62d6b459, p.ack), a, now);
    var wait := Service(p.httpWait.Some?, HttpWaitBody(p.httpWait), ack.auth, now);
    ServiceFresh(p.httpWait.Some?, HttpWaitBody(p.httpWait), ack.auth, now);
    var salts := Service(p.futureSalts > 0, SaltsBody(p.futureSalts), wait.auth, now);
    ServiceFresh(p.futureSalts > 0, SaltsBody(p.futureSalts), wait.auth, now);
    ServiceFresh(p.stateInfo != [], IdsBody(0xda69fb52, p.stateInfo), salts.auth, now);
  }

  lemma LateFresh(p: Payload, a: Auth, now: real)
    requires Fresh(a)
    ensures var r := AssembleLate(p, a, now).1; Fresh(r) && a.seqNo == r.seqNo
  {
    hide Service, Cancels, IdsBody, PingBody, DestroyBody, Fresh;
    var resend := Service(p.resend != [], IdsBody(0x7d861a08, p.resend), a, now);
    ServiceFresh(p.resend != [], IdsBody(0x7d861a08, p.resend), a, now);
    var cancel := Cancels(p.cancel, resend.auth, now);
    CancelsFresh(p.cancel, resend.auth, now);
    var destroy := Service(p.destroyKey, DestroyBody(), cancel.auth, now);
    ServiceFresh(p.destroyKey, DestroyBody(), cancel.auth, now);
    ServiceFresh(p.ping.Some?, PingBody(p.ping), destroy.auth, now);
  }

  lemma FlushRecord(s: State, now: real, ordered: bool)
    requires Fresh(s.auth) && (ordered ==> QueryChain(s.queues.send, Position(s.auth)))
    ensures var f := Flush(s, now);
            && Fresh(f.state.auth)
            && s.auth.lastMessageId <= f.state.auth.lastMessageId && f.state.auth.seqNo == s.auth.seqNo
            && (ordered ==> QueryChain(f.state.queues.send, Position(f.state.auth)))
            && (f.payload.Some? <==> f.packet.Some?)
            && (f.payload.Some? ==> RecordSound(Record(f.payload.value, f.packet.value), ordered))
  {
    hide Assemble, AfterPing, Flush, PlanFor, Chain, Fresh, PayloadFor, RecordSound, NothingToSend;
    var p := PlanFor(s, now);
    var auth := AfterPing(s.auth, p.ping, now);
    FlushParts(s, now);
    UpdateKeepsFresh(s.auth, p.ping, now);
    if ordered { QueriesLater(s.queues.send, 0, Position(s.auth), Position(auth)); }
    if !NothingToSend(s, p) {
      var payload := PayloadFor(s, p, auth.lastMessageId, now);
      PayloadCounts(s, p, auth.lastMessageId, now);
      PayloadLimits(s, p, auth.lastMessageId, now);
      if ordered { PayloadChain(s, p, auth.lastMessageId, now, Position(auth)); }
      AssembledRecord(payload, auth, now, ordered);
      AssembleFresh(payload, auth, now);
      if ordered { QueriesLater(s.queues.send, p.take, Position(auth), Position(Assemble(payload, auth, now).auth)); }
    }
  }

  /** What a flush does to the allocator and the waiting queries, and what it sends. */
  lemma FlushParts(s: State, now: real)
    ensures var f, p := Flush(s, now), PlanFor(s, now);
            var auth := AfterPing(s.auth, p.ping, now);
            && p.take <= |s.queues.send| && p.take <= MAX_QUERY_COUNT
            && if NothingToSend(s, p) then
                 f.payload.None? && f.packet.None? && f.state.auth == auth && f.state.queues.send == s.queues.send
               else
                 var payload := PayloadFor(s, p, auth.lastMessageId, now);
                 var r := Assemble(payload, auth, now);
                 && f.payload == Some(payload) && f.packet == Some(r.packet)
                 && f.state.auth == r.auth && f.state.queues.send == s.queues.send[p.take..]
  {
    hide Assemble, AfterPing, SendTill, SentFlight, SentPing, HasSalt, NeedFutureSalts, PayloadFor, SentQueues;
    SentSend(s.queues, PlanFor(s, now).take);
  }

  lemma SentSend(q: Queues, take: nat)
    requires take <= |q.send| && take <= MAX_QUERY_COUNT
    ensures SentQueues(q, take).send == q.send[take..]
  {
  }

  lemma QueriesLater(queries: seq<Query>, from: nat, x: (nat, nat), y: (nat, nat))
    requires from <= |queries| && QueryChain(queries, x) && x.0 <= y.0 && x.1 <= y.1
    ensures QueryChain(queries[from..], y) && QueryChain(queries, y)
  {
    hide Chain;
    QueryChainPart(queries, from, |queries|, [], x);
    assert queries[from..|queries|] == queries[from..];
    ChainLater(QueryMessages(queries[from..], []), (0, 0), x, y);
    ChainLater(QueryMessages(queries, []), (0, 0), x, y);
  }

  lemma PayloadLimits(s: State, p: Plan, pingId: nat, now: real)
    requires p.take <= |s.queues.send| && p.take <= MAX_QUERY_COUNT
    ensures WithinLimits(PayloadFor(s, p, pingId, now))
  {
    hide WaitFor;
  }

  lemma PayloadChain(s: State, p: Plan, pingId: nat, now: real, last: (nat, nat))
    requires p.take <= |s.queues.send| && p.take <= MAX_QUERY_COUNT && QueryChain(s.queues.send, last)
    ensures var payload := PayloadFor(s, p, pingId, now);
            Chain(QueryMessages(payload.queries, payload.header), (0, 0), last)
  {
    hide WaitFor, Chain;
    QueryChainPart(s.queues.send, 0, p.take, s.header, last);
    assert s.queues.send[0..p.take] == s.queues.send[..p.take];
  }

  lemma FlushStepPacked(w: World, now: real, ordered: bool)
    requires Packed(w, ordered)
    ensures Packed(FlushStep(w, now), ordered)
  {
    hide Flush, QueryChain, RecordSound, Fresh;
    FlushRecord(w.s, now, ordered);
  }

  lemma {:induction false} DrainPacked(w: World, now: real, ordered: bool)
    requires now > 0.0 && Sound(w.s.link) && Packed(w, ordered)
    ensures Packed(Drain(w, now), ordered)
    decreases Work(w.s, now)
  {
    hide Flush, MustFlush, QueryChain, RecordSound;
    if MustFlush(w.s, now) {
      FlushReducesWork(w.s, now);
      FlushKeepsLink(w.s, now);
      FlushStepPacked(w, now, ordered);
      DrainPacked(FlushStep(w, now), now, ordered);
    }
  }

  /** Whatever only shortens or keeps the waiting queries and leaves the allocator alone. */
  lemma UntouchedPacked(w: World, r: World, ordered: bool)
    requires Packed(w, ordered)
    requires r.s.queues.send == w.s.queues.send || r.s.queues.send == []
    requires r.s.auth.lastMessageId == w.s.auth.lastMessageId && r.s.auth.seqNo == w.s.auth.seqNo
    requires r.log.packets == w.log.packets
    ensures Packed(r, ordered)
  {
    hide RecordSound;
  }

  lemma TurnPacked(w: World, tested: real, flushed: real, ordered: bool)
    requires Sound(w.s.link) && Packed(w, ordered)
    ensures Packed(TurnStep(w, tested, flushed), ordered)
  {
    hide FlushStep, MustFlush, Packed, UpdateSalt;
    var v := w.(s := if MustFlush(w.s, tested) then Looked(w.s, tested) else Idle(w.s, tested));
    UntouchedPacked(w, v, ordered);
    if MustFlush(w.s, tested) { FlushStepPacked(v, flushed, ordered); }
  }

  lemma BindPacked(w: World, now: real, ordered: bool)
    requires Packed(w, ordered)
    ensures Packed(BindStep(w, now), ordered)
  {
    hide NextId, QueryChain, RecordSound;
    if ordered { QueriesLater(w.s.queues.send, 0, Position(w.s.auth), Position(WithNextId(w.s.auth, now))); }
  }

  lemma FailPacked(w: World, id: nat, now: real, ordered: bool)
    requires Packed(w, ordered)
    ensures Packed(FailStep(w, id, now), ordered)
  {
    hide FailEach, Packed;
    var f := w.s.flight;
    FailEachKeepsSend(Held(w.s.queues, f.service), if id in f.containers then f.containers[id] else [id], now);
    UntouchedPacked(w, FailStep(w, id, now), ordered);
  }

  lemma SendQueryPacked(w: World, e: Event, ordered: bool)
    requires !w.s.closed && e.SendQuery? && Packed(w, ordered)
    ensures Packed(SendQueryStep(w, e), ordered) <==> !ordered || InTurn(w, e)
  {
    hide NextId, QueryChain, RecordSound;
    if w.s.link.mode != HttpLongPoll {
      var r := SendQueryStep(w, e);
      var query := r.log.submitted[|w.log.submitted|];
      AllocateAdvances(w.s.auth, e.now, true);
      if e.id == 0 {
        if ordered { QueryChainPush(w.s.queues.send, query, w.s.auth, e.now); }
      } else if ordered {
        QueryChainGiven(w.s.queues.send, query, w.s.auth);
      }
    }
  }

  /** One event keeps the packets and the waiting queries in order if and only if it is in turn. */
  lemma StepPacked(w: World, e: Event, ordered: bool)
    requires Sound(w.s.link) && Timed(e) && Packed(w, ordered)
    ensures Packed(Step(w, e), ordered) <==> !ordered || InTurn(w, e)
  {
    if !w.s.closed && e.SendQuery? {
      hide Packed, SendQueryStep;
      SendQueryPacked(w, e, ordered);
    } else {
      OtherPacked(w, e, ordered);
    }
  }

  lemma OtherPacked(w: World, e: Event, ordered: bool)
    requires Sound(w.s.link) && Timed(e) && Packed(w, ordered) && (w.s.closed || !e.SendQuery?)
    ensures Packed(Step(w, e), ordered)
  {
    hide Packed;
    if w.s.closed {
    } else if Routine(e) {
      hide Step;
      RoutineEffect(w, e);
      UntouchedPacked(w, Step(w, e), ordered);
    } else {
      hide Drain, FailStep, TurnStep, BindStep;
      match e
      case MessageFailed(now, id) => FailPacked(w, id, now, ordered);
      case BadServerSalt(now, salt, id) =>
        var v := w.(s := Resalted(w.s, salt, now));
        UntouchedPacked(w, v, ordered);
        FailPacked(v, id, now, ordered);
      case BeforeWrite(now) => DrainPacked(w, now, ordered);
      case Turn(tested, flushed) => TurnPacked(w, tested, flushed, ordered);
      case BindKey(now) => BindPacked(w, now, ordered);
      case MessageIdTooHigh => UntouchedPacked(w, Step(w, e), ordered);
      case StateInfo(id, count) => UntouchedPacked(w, Step(w, e), ordered);
      case AskStateInfo(now, id) => UntouchedPacked(w, Step(w, e), ordered);
      case AskResend(now, id) => UntouchedPacked(w, Step(w, e), ordered);
      case _ =>
    }
  }

  /** Over every run, whatever identifiers callers give: every packet stays within the limits and its count field is the
      number of its messages. */
  lemma {:induction false} PacketsWithinLimits(s: State, es: seq<Event>)
    requires Initial(s) && AllTimed(es)
    ensures Packed(Run(s, es), false)
  {
    hide Step;
    if es != [] {
      PacketsWithinLimits(s, es[..|es| - 1]);
      StepPacked(Run(s, es[..|es| - 1]), es[|es| - 1], false);
    }
  }

  ghost predicate AlwaysPacked(s: State, es: seq<Event>)
    requires Sound(s.link) && AllTimed(es)
  {
    Packed(Run(s, es), true) && (es != [] ==> AlwaysPacked(s, es[..|es| - 1]))
  }

  predicate AlwaysInTurn(s: State, es: seq<Event>)
    requires Sound(s.link) && AllTimed(es)
  {
    es == [] || (AlwaysInTurn(s, es[..|es| - 1]) && InTurn(Run(s, es[..|es| - 1]), es[|es| - 1]))
  }

  lemma LastPacked(s: State, es: seq<Event>)
    requires Sound(s.link) && AllTimed(es) && AlwaysPacked(s, es)
    ensures Packed(Run(s, es), true)
  {
  }

  /** Over every run: the messages of every packet are stored in increasing order of identifier with the sequence
      numbers in step, below the identifier of the container, and the waiting queries are in that order too, in
      every state of the run if and only if every given identifier is in turn. */
  lemma {:induction false} PackedExactly(s: State, es: seq<Event>)
    requires Initial(s) && AllTimed(es)
    ensures AlwaysPacked(s, es) <==> AlwaysInTurn(s, es)
  {
    hide Step, Packed, InTurn;
    if es == [] {
      NothingPacked(s);
    } else {
      var before := es[..|es| - 1];
      PackedExactly(s, before);
      if AlwaysPacked(s, before) {
        LastPacked(s, before);
        StepPacked(Run(s, before), es[|es| - 1], true);
      }
    }
  }

  lemma NothingPacked(s: State)
    requires Initial(s)
    ensures Packed(World(s, NOTHING_LOGGED), true)
  {
  }

  // ---------------------------------------------------------------------------------------------------------
  // Every identifier is used once
  // ---------------------------------------------------------------------------------------------------------

  function Ids(ms: seq<Message>): (ids: seq<nat>)
    ensures |ids| == |ms| && forall i :: 0 <= i < |ms| ==> ids[i] == ms[i].id
  {
    seq(|ms|, i requires 0 <= i < |ms| => ms[i].id)
  }

  /** The identifiers a packet took for its service messages and its container. */
  function OwnIds(p: Packet): seq<nat>
  {
    Ids(EarlyMessages(p.early) + LateMessages(p.late)) + (if p.kind == Mixed then [p.containerId] else [])
  }

  function AllOwnIds(packets: seq<Record>): seq<nat>
  {
    if packets == [] then [] else AllOwnIds(packets[..|packets| - 1]) + OwnIds(packets[|packets| - 1].packet)
  }

  /** Strictly increasing and within (from, to]. */
  ghost predicate Rising(ids: seq<nat>, from: nat, to: nat)
  {
    && from <= to && (forall i :: 0 <= i < |ids| ==> from < ids[i] <= to)
    && (forall i, j :: 0 <= i < j < |ids| ==> ids[i] < ids[j])
  }

  ghost predicate Apart(a: seq<nat>, b: seq<nat>)
  {
    forall i :: 0 <= i < |a| ==> a[i] !in b
  }

  lemma RisingAppend(a: seq<nat>, b: seq<nat>, x: nat, y: nat, z: nat)
    requires Rising(a, x, y) && Rising(b, y, z)
    ensures Rising(a + b, x, z)
  {
  }

  lemma ChainRises(ms: seq<Message>, x: (nat, nat), y: (nat, nat))
    requires Chain(ms, x, y)
    ensures Rising(Ids(ms), x.0, y.0)
  {
    forall i | 0 <= i < |ms| ensures x.0 < Ids(ms)[i] <= y.0 { assert InRange(ms[i], x, y); }
    forall i, j | 0 <= i < j < |ms| ensures Ids(ms)[i] < Ids(ms)[j] { assert Precedes(ms[i], ms[j]); }
  }

  lemma OwnIdsRise(p: Payload, a: Auth, now: real)
    requires Fresh(a)
    ensures var r := Assemble(p, a, now); Rising(OwnIds(r.packet), a.lastMessageId, r.auth.lastMessageId)
  {
    hide AssembleEarly, AssembleLate, QueryMessages, NextId, Rising, EarlyMessages, LateMessages, Fresh;
    var (early, b) := AssembleEarly(p, a, now);
    var (late, c) := AssembleLate(p, b, now);
    var ms := EarlyMessages(early) + LateMessages(late);
    ServiceIdsRise(p, a, now);
    if NeedsContainer(p, c, now) {
      var slot := Allocate(c, now, false);
      OneRises(slot.id, c.lastMessageId);
      RisingAppend(Ids(ms), [slot.id], a.lastMessageId, c.lastMessageId, slot.id);
    } else {
      assert Ids(ms) + [] == Ids(ms);
    }
  }

  lemma ServiceIdsRise(p: Payload, a: Auth, now: real)
    requires Fresh(a)
    ensures var (early, b) := AssembleEarly(p, a, now);
            var (late, c) := AssembleLate(p, b, now);
            Rising(Ids(EarlyMessages(early) + LateMessages(late)), a.lastMessageId, c.lastMessageId)
  {
    EarlyChain(p, a, now);
    var (early, b) := AssembleEarly(p, a, now);
    LateChain(p, b, now);
    var (late, c) := AssembleLate(p, b, now);
    hide AssembleEarly, AssembleLate, Chain, Rising, EarlyMessages, LateMessages, Fresh;
    ChainAppend(EarlyMessages(early), LateMessages(late), Position(a), Position(b), Position(c));
    ChainRises(EarlyMessages(early) + LateMessages(late), Position(a), Position(c));
  }

  lemma OneRises(id: nat, from: nat)
    requires from < id
    ensures Rising([id], from, id)
  {
  }

  ghost predicate QueryIdsBelow(queries: seq<Query>, last: nat)
  {
    forall i :: 0 <= i < |queries| ==> queries[i].id <= last
  }

  ghost predicate Distinct(queries: seq<Query>)
  {
    forall i, j :: 0 <= i < j < |queries| ==> queries[i].id != queries[j].id
  }

  /** The service messages and containers of all packets took strictly increasing identifiers, and so did the messages
      that bind keys, none shared. The submitted queries have pairwise different identifiers, none shared with a service
      message or a container, and shared with a binding message exactly where the caller gave it. */
  ghost predicate UsedOnce(w: World)
  {
    var own, last := AllOwnIds(w.log.packets), w.s.auth.lastMessageId;
    && Issued(w)
    && |w.log.given| == |w.log.submitted|
    && Distinct(w.log.submitted) && QueryIdsBelow(w.log.submitted, last)
    && (forall i :: 0 <= i < |w.log.submitted| ==> w.log.submitted[i].id !in own)
    && (forall i :: 0 <= i < |w.log.submitted| ==> (w.log.submitted[i].id in w.log.bound <==> w.log.given[i]))
  }

  /** The part about the identifiers the session took itself. */
  ghost predicate Issued(w: World)
  {
    var own, last := AllOwnIds(w.log.packets), w.s.auth.lastMessageId;
    Fresh(w.s.auth) && Rising(own, 0, last) && Rising(w.log.bound, 0, last) && Apart(w.log.bound, own)
  }

  /** A given identifier was taken by a binding message, and no query has it yet. */
  predicate Reserved(w: World, e: Event)
  {
    Gives(w, e) ==> e.id in w.log.bound && !Submitted(w, e.id)
  }

  lemma FlushOwnIds(s: State, now: real)
    requires Fresh(s.auth)
    ensures var f := Flush(s, now);
            && Fresh(f.state.auth) && s.auth.lastMessageId <= f.state.auth.lastMessageId
            && (f.payload.Some? <==> f.packet.Some?)
            && (f.packet.Some? ==> Rising(OwnIds(f.packet.value), s.auth.lastMessageId, f.state.auth.lastMessageId))
  {
    hide Assemble, AfterPing, Flush, PlanFor, Fresh, PayloadFor, OwnIds, NothingToSend;
    var p := PlanFor(s, now);
    var auth := AfterPing(s.auth, p.ping, now);
    FlushParts(s, now);
    UpdateKeepsFresh(s.auth, p.ping, now);
    if !NothingToSend(s, p) {
      var payload := PayloadFor(s, p, auth.lastMessageId, now);
      OwnIdsRise(payload, auth, now);
      AssembleFresh(payload, auth, now);
    }
  }

  lemma RecordUsedOnce(w: World, r: World, rec: Record)
    requires UsedOnce(w) && Fresh(r.s.auth)
    requires Rising(OwnIds(rec.packet), w.s.auth.lastMessageId, r.s.auth.lastMessageId)
    requires r.log.packets == w.log.packets + [rec] && r.log.submitted == w.log.submitted
    requires r.log.given == w.log.given && r.log.bound == w.log.bound
    ensures UsedOnce(r)
  {
    hide OwnIds;
    var own, added := AllOwnIds(w.log.packets), OwnIds(rec.packet);
    assert r.log.packets[..|r.log.packets| - 1] == w.log.packets;
    assert AllOwnIds(r.log.packets) == own + added;
    RisingAppend(own, added, 0, w.s.auth.lastMessageId, r.s.auth.lastMessageId);
    forall i | 0 <= i < |w.log.submitted| ensures w.log.submitted[i].id !in own + added {
      assert w.log.submitted[i].id <= w.s.auth.lastMessageId;
    }
  }

  lemma LaterUsedOnce(w: World, r: World)
    requires UsedOnce(w) && Fresh(r.s.auth) && w.s.auth.lastMessageId <= r.s.auth.lastMessageId
    requires r.log.packets == w.log.packets && r.log.submitted == w.log.submitted && r.log.given == w.log.given
    requires r.log.bound == w.log.bound
    ensures UsedOnce(r)
  {
    hide AllOwnIds;
  }

  lemma FlushStepUsedOnce(w: World, now: real)
    requires UsedOnce(w)
    ensures UsedOnce(FlushStep(w, now))
  {
    hide Flush;
    FlushOwnIds(w.s, now);
    hide UsedOnce;
    var f, r := Flush(w.s, now), FlushStep(w, now);
    if f.packet.Some? { RecordUsedOnce(w, r, Record(f.payload.value, f.packet.value)); } else { LaterUsedOnce(w, r); }
  }

  lemma {:induction false} DrainUsedOnce(w: World, now: real)
    requires now > 0.0 && Sound(w.s.link) && UsedOnce(w)
    ensures UsedOnce(Drain(w, now))
    decreases Work(w.s, now)
  {
    hide Flush, MustFlush;
    if MustFlush(w.s, now) {
      FlushReducesWork(w.s, now);
      FlushKeepsLink(w.s, now);
      FlushStepUsedOnce(w, now);
      hide UsedOnce;
      DrainUsedOnce(FlushStep(w, now), now);
    } else {
      LaterUsedOnce(w, Drain(w, now));
    }
  }

  lemma TurnUsedOnce(w: World, tested: real, flushed: real)
    requires Sound(w.s.link) && UsedOnce(w)
    ensures UsedOnce(TurnStep(w, tested, flushed))
  {
    FreshOf(w);
    hide FlushStep, MustFlush, UsedOnce, UpdateSalt;
    var v := w.(s := if MustFlush(w.s, tested) then Looked(w.s, tested) else Idle(w.s, tested));
    LaterUsedOnce(w, v);
    if MustFlush(w.s, tested) { FlushStepUsedOnce(v, flushed); }
  }

  lemma BindUsedOnce(w: World, now: real)
    requires UsedOnce(w)
    ensures UsedOnce(BindStep(w, now))
  {
    hide NextId, AllOwnIds;
    var id := WithNextId(w.s.auth, now).lastMessageId;
    OneRises(id, w.s.auth.lastMessageId);
    RisingAppend(w.log.bound, [id], 0, w.s.auth.lastMessageId, id);
  }

  lemma SendQueryUsedOnce(w: World, e: Event)
    requires !w.s.closed && e.SendQuery? && UsedOnce(w)
    ensures UsedOnce(SendQueryStep(w, e)) <==> Reserved(w, e)
  {
    hide NextId, AllOwnIds;
    if w.s.link.mode != HttpLongPoll {
      AllocateAdvances(w.s.auth, e.now, true);
      var r, n := SendQueryStep(w, e), |w.log.submitted|;
      assert r.log.submitted[n].id == (if e.id == 0 then r.s.auth.lastMessageId else e.id);
      if e.id == 0 {
        assert r.log.submitted[n].id !in w.log.bound && !r.log.given[n];
      } else if UsedOnce(r) {
        assert r.log.given[n];
        forall i | 0 <= i < n ensures w.log.submitted[i].id != e.id { assert r.log.submitted[i] == w.log.submitted[i]; }
      }
    }
  }

  /** One event leaves every identifier used once if and only if the one it gives, if any, is reserved. */
  lemma StepUsedOnce(w: World, e: Event)
    requires Sound(w.s.link) && Timed(e) && UsedOnce(w)
    ensures UsedOnce(Step(w, e)) <==> Reserved(w, e)
  {
    if !w.s.closed && e.SendQuery? {
      hide UsedOnce, SendQueryStep;
      SendQueryUsedOnce(w, e);
    } else {
      OtherUsedOnce(w, e);
    }
  }

  lemma OtherUsedOnce(w: World, e: Event)
    requires Sound(w.s.link) && Timed(e) && UsedOnce(w) && (w.s.closed || !e.SendQuery?)
    ensures UsedOnce(Step(w, e))
  {
    if w.s.closed {
    } else if Routine(e) {
      RoutineEffect(w, e);
      hide Step, UsedOnce;
      assert Fresh(Step(w, e).s.auth) by { FreshOf(w); }
      LaterUsedOnce(w, Step(w, e));
    } else {
      FreshOf(w);
      hide Drain, UsedOnce, TurnStep, BindStep;
      match e
      case Turn(tested, flushed) => TurnUsedOnce(w, tested, flushed);
      case BindKey(now) => BindUsedOnce(w, now);
      case BeforeWrite(now) => DrainUsedOnce(w, now);
      case _ => AskUsedOnce(w, e);
    }
  }

  /** Events that take no identifier. */
  lemma AskUsedOnce(w: World, e: Event)
    requires Sound(w.s.link) && Timed(e) && UsedOnce(w)
    requires e.MessageFailed? || e.BadServerSalt? || e.MessageIdTooHigh? || e.StateInfo? || e.AskStateInfo?
             || e.AskResend?
    ensures UsedOnce(Step(w, e))
  {
    FreshOf(w);
    hide FailEach, UsedOnce;
    LaterUsedOnce(w, Step(w, e));
  }

  lemma FreshOf(w: World)
    requires UsedOnce(w)
    ensures Fresh(w.s.auth)
  {
  }

  ghost predicate AlwaysUsedOnce(s: State, es: seq<Event>)
    requires Sound(s.link) && AllTimed(es)
  {
    UsedOnce(Run(s, es)) && (es != [] ==> AlwaysUsedOnce(s, es[..|es| - 1]))
  }

  predicate AlwaysReserved(s: State, es: seq<Event>)
    requires Sound(s.link) && AllTimed(es)
  {
    es == [] || (AlwaysReserved(s, es[..|es| - 1]) && Reserved(Run(s, es[..|es| - 1]), es[|es| - 1]))
  }

  lemma LastUsedOnce(s: State, es: seq<Event>)
    requires Sound(s.link) && AllTimed(es) && AlwaysUsedOnce(s, es)
    ensures UsedOnce(Run(s, es))
  {
  }

  /** Over every run: no identifier is used for two messages, but for that of a binding message and the query it was
      given to, in every state of the run if and only if every given identifier is reserved when it is given. */
  lemma {:induction false} UsedOnceExactly(s: State, es: seq<Event>)
    requires Initial(s) && AllTimed(es)
    ensures AlwaysUsedOnce(s, es) <==> AlwaysReserved(s, es)
  {
    hide Step, UsedOnce, Reserved;
    if es == [] {
      NothingUsed(s);
    } else {
      var before := es[..|es| - 1];
      UsedOnceExactly(s, before);
      if AlwaysUsedOnce(s, before) {
        LastUsedOnce(s, before);
        StepUsedOnce(Run(s, before), es[|es| - 1]);
      }
    }
  }

  lemma NothingUsed(s: State)
    requires Initial(s)
    ensures UsedOnce(World(s, NOTHING_LOGGED))
  {
  }

  // ---------------------------------------------------------------------------------------------------------
  // What the caller does
  // ---------------------------------------------------------------------------------------------------------

  predicate AlwaysAsBound(s: State, es: seq<Event>)
    requires Sound(s.link) && AllTimed(es)
  {
    es == [] || (AlwaysAsBound(s, es[..|es| - 1]) && AsBound(Run(s, es[..|es| - 1]), es[|es| - 1]))
  }

  /** The identifier just taken by a binding message is reserved and in turn. */
  lemma BoundIsRight(w: World, e: Event)
    requires UsedOnce(w) && SessionTheorems.QueriesKept(w) && AsBound(w, e)
    ensures Reserved(w, e) && InTurn(w, e)
  {
    hide AllOwnIds;
    var send := w.s.queues.send;
    if Gives(w, e) && send != [] {
      var k := |w.log.sent| + |send| - 1;
      assert w.log.submitted[k] == send[|send| - 1];
    }
  }

  lemma {:induction false} CallerIsRight(s: State, es: seq<Event>)
    requires Initial(s) && AllTimed(es) && AlwaysAsBound(s, es)
    ensures AlwaysReserved(s, es) && AlwaysInTurn(s, es)
  {
    hide Step, UsedOnce, AsBound, Reserved, InTurn, SessionTheorems.QueriesKept;
    if es != [] {
      var before := es[..|es| - 1];
      CallerIsRight(s, before);
      UsedOnceExactly(s, before);
      LastUsedOnce(s, before);
      SessionTheorems.QueriesConserved(s, before);
      BoundIsRight(Run(s, before), es[|es| - 1]);
    }
  }

  /** Over every run with such a caller: every packet stays within the limits, its count field is the number of its
      messages, and they are stored in increasing order of identifier with the sequence numbers in step, below the
      identifier of the container. */
  lemma PacketsInOrder(s: State, es: seq<Event>)
    requires Initial(s) && AllTimed(es) && AlwaysAsBound(s, es)
    ensures Packed(Run(s, es), true)
  {
    hide Run, Packed;
    CallerIsRight(s, es);
    PackedExactly(s, es);
    LastPacked(s, es);
  }

  /** Over every run with such a caller no identifier is used for two messages, but for those of binding messages
      and the queries they were given to. */
  lemma IdentifiersUsedOnce(s: State, es: seq<Event>)
    requires Initial(s) && AllTimed(es) && AlwaysAsBound(s, es)
    ensures UsedOnce(Run(s, es))
  {
    hide Run, UsedOnce;
    CallerIsRight(s, es);
    UsedOnceExactly(s, es);
    LastUsedOnce(s, es);
  }

  /** Binding a key after any such run: the message takes an identifier, the query is submitted under the same one, and
      the run is still one of such a caller. */
  lemma BindThenSend(s: State, es: seq<Event>, now: real, later: real, data: Buffer) returns (more: seq<Event>)
    requires Initial(s) && AllTimed(es) && AlwaysAsBound(s, es) && now > 0.0 && later > 0.0
    requires var w := Run(s, es); !w.s.closed && w.s.link.mode != HttpLongPoll
    ensures AllTimed(more) && AlwaysAsBound(s, more)
    ensures var w, r := Run(s, es), Run(s, more);
            && more == es + [BindKey(now)] + [SendQuery(later, data, false, r.s.auth.lastMessageId, [], false)]
            && |r.log.bound| == |w.log.bound| + 1 && |r.log.submitted| == |w.log.submitted| + 1
            && r.log.given == w.log.given + [true]
            && r.log.submitted[|w.log.submitted|].id == r.log.bound[|w.log.bound|] > w.s.auth.lastMessageId
  {
    hide Step;
    var w := Run(s, es);
    var bind := BindKey(now);
    var bound := Step(w, bind);
    var send := SendQuery(later, data, false, bound.s.auth.lastMessageId, [], false);
    more := es + [bind] + [send];
    IdentifiersUsedOnce(s, es);
    assert more[..|es| + 1] == es + [bind] && (es + [bind])[..|es|] == es;
    BindEffect(w, now);
    GivenEffect(bound, send);
  }

  lemma BindEffect(w: World, now: real)
    requires Sound(w.s.link) && now > 0.0 && !w.s.closed && UsedOnce(w)
    ensures var r := Step(w, BindKey(now));
            && r == w.(s := r.s, log := w.log.(bound := w.log.bound + [r.s.auth.lastMessageId]))
            && !r.s.closed && r.s.link == w.s.link
            && w.s.auth.lastMessageId < r.s.auth.lastMessageId && !Submitted(w, r.s.auth.lastMessageId)
  {
    hide NextId, AllOwnIds;
  }

  lemma GivenEffect(w: World, e: Event)
    requires Sound(w.s.link) && Timed(e) && Gives(w, e)
    ensures var r := Step(w, e);
            && r.s.auth.lastMessageId == w.s.auth.lastMessageId && r.log.bound == w.log.bound
            && |r.log.submitted| == |w.log.submitted| + 1 && r.log.submitted[|w.log.submitted|].id == e.id
            && r.log.given == w.log.given + [true]
  {
  }

  /** An identifier of the caller's own making is never reserved. */
  lemma OwnIdentifier(s: State, now: real, data: Buffer, id: nat)
    requires Initial(s) && !s.closed && s.link.mode != HttpLongPoll && now > 0.0 && id > 0
    ensures var es := [SendQuery(now, data, false, id, [], false)];
            AllTimed(es) && !AlwaysUsedOnce(s, es) && !UsedOnce(Run(s, es))
  {
    hide Step;
    var e := SendQuery(now, data, false, id, [], false);
    assert [e][..0] == [];
    NothingUsed(s);
    StepUsedOnce(World(s, NOTHING_LOGGED), e);
  }
}
