/** What holds over every run of a session, whatever the events and the random numbers. */
module SessionTheorems {
  import opened AuthData
  import opened CryptoStorer
  import opened Session
  import opened SessionWakeup
  import opened SessionRuns

  // ---------------------------------------------------------------------------------------------------------
  // No lost wakeup
  // ---------------------------------------------------------------------------------------------------------

  ghost predicate OnTime(w: World)
  {
    Wakes(w.s.queues, w.log.since)
  }

  lemma {:induction false} DrainOnTime(w: World, now: real)
    requires now > 0.0 && Sound(w.s.link) && OnTime(w)
    ensures OnTime(Drain(w, now))
    decreases Work(w.s, now)
  {
    hide Flush, Wakes, MustFlush;
    if MustFlush(w.s, now) {
      LoopFlushKeepsWakes(w.s, w.log.since, now);
      FlushReducesWork(w.s, now);
      FlushKeepsLink(w.s, now);
      DrainOnTime(FlushStep(w, now), now);
    }
  }

  lemma FilledOnTime(w: World, queues: Queues, now: real)
    requires OnTime(w) && Grows(w.s.queues, queues, now)
    ensures OnTime(Filled(w, queues, now))
  {
    hide Wakes, Grows;
    GrowsKeepsWakes(w.s.queues, queues, w.log.since, now);
  }

  /** A turn of the loop that flushes when the salt it was tested with is gone. */
  predicate Forgets(w: World, e: Event)
  {
    e.Turn? && !w.s.closed && MustFlush(w.s, e.tested) && ForgetsQueries(Looked(w.s, e.tested), e.flushed)
  }

  lemma TurnOnTime(w: World, tested: real, flushed: real)
    requires Sound(w.s.link) && OnTime(w)
    ensures OnTime(TurnStep(w, tested, flushed))
            <==> !(MustFlush(w.s, tested) && ForgetsQueries(Looked(w.s, tested), flushed))
  {
    hide Flush, MustFlush, ForgetsQueries, UpdateSalt, Wakes, FlushAt, Ready;
    if MustFlush(w.s, tested) { FlushKeepsWakes(Looked(w.s, tested), w.log.since, flushed); }
  }

  /** An event keeps every queue on time exactly unless it is such a turn. */
  lemma StepOnTime(w: World, e: Event)
    requires Sound(w.s.link) && Timed(e) && OnTime(w)
    ensures OnTime(Step(w, e)) <==> !Forgets(w, e)
  {
    hide Grows, Drain, PushInfo, PushResend, PushCancel, PushAck, Session.ForceAck, FailEach, Rtt, NextId, TurnStep,
         MustFlush, ForgetsQueries;
    if !w.s.closed {
      match e
      case SendQuery(now, _, _, _, _, _) => SendQueryOnTime(w, e);
      case MessageFailed(now, id) => FailOnTime(w, id, now);
      case BadServerSalt(now, salt, id) => FailOnTime(w.(s := Resalted(w.s, salt, now)), id, now);
      case BeforeWrite(now) => DrainOnTime(w, now);
      case Turn(tested, flushed) => TurnOnTime(w, tested, flushed);
      case _ => if Pushes(e) { PushOnTime(w, e); } else { OtherOnTime(w, e); }
    }
  }

  /** The event puts an identifier into a queue. */
  predicate Pushes(e: Event)
  {
    e.AskStateInfo? || e.AskResend? || e.AskCancel? || e.Acknowledge? || e.ForceAcks?
  }

  lemma PushOnTime(w: World, e: Event)
    requires Sound(w.s.link) && Timed(e) && OnTime(w) && !w.s.closed && Pushes(e)
    ensures OnTime(Step(w, e))
  {
    hide Grows, PushInfo, PushResend, PushCancel, PushAck, Session.ForceAck, Wakes;
    match e
    case AskStateInfo(now, id) => IdGrows(w.s.queues, id, now); FilledOnTime(w, PushInfo(w.s.queues, id, now), now);
    case AskResend(now, id) => IdGrows(w.s.queues, id, now); FilledOnTime(w, PushResend(w.s.queues, id, now), now);
    case AskCancel(now, id) => IdGrows(w.s.queues, id, now); FilledOnTime(w, PushCancel(w.s.queues, id, now), now);
    case Acknowledge(now, id) => AckGrows(w.s.queues, id, now); FilledOnTime(w, PushAck(w.s.queues, id, now), now);
    case ForceAcks(now) => AckGrows(w.s.queues, 0, now); FilledOnTime(w, Session.ForceAck(w.s.queues, now), now);
    case _ =>
  }

  /** The rest of the events touch no queue but that of the queries, which they may empty. */
  lemma OtherOnTime(w: World, e: Event)
    requires Sound(w.s.link) && Timed(e) && OnTime(w) && !w.s.closed && !Pushes(e)
    requires !e.SendQuery? && !e.MessageFailed? && !e.BadServerSalt? && !e.BeforeWrite? && !e.Turn?
    ensures OnTime(Step(w, e))
  {
    hide Rtt, NextId, UpdateSalt;
  }

  lemma SendQueryOnTime(w: World, e: Event)
    requires e.SendQuery? && e.now > 0.0 && OnTime(w)
    ensures OnTime(SendQueryStep(w, e))
  {
    hide Grows, PushQuery, NextId, Wakes;
    if w.s.link.mode != HttpLongPoll {
      var r := SendQueryStep(w, e);
      var query := r.log.submitted[|w.log.submitted|];
      QueryGrows(w.s.queues, query, e.now);
      FilledOnTime(w, PushQuery(w.s.queues, query, e.now), e.now);
    }
  }

  lemma FailOnTime(w: World, id: nat, now: real)
    requires now > 0.0 && OnTime(w)
    ensures OnTime(FailStep(w, id, now))
  {
    hide Grows, FailEach;
    var f := w.s.flight;
    var ids := if id in f.containers then f.containers[id] else [id];
    FailEachGrows(Held(w.s.queues, f.service), ids, now);
    GrowsKeepsWakes(w.s.queues, FailEach(Held(w.s.queues, f.service), ids, now).queues, w.log.since, now);
  }

  /** No turn of the run forgets queries. */
  predicate NeverForgets(s: State, es: seq<Event>)
    requires Sound(s.link) && AllTimed(es)
  {
    es == [] || (NeverForgets(s, es[..|es| - 1]) && !Forgets(Run(s, es[..|es| - 1]), es[|es| - 1]))
  }

  /** Every state of the run, the last included, has every queue on time. */
  ghost predicate AlwaysOnTime(s: State, es: seq<Event>)
    requires Sound(s.link) && AllTimed(es)
  {
    OnTime(Run(s, es)) && (es != [] ==> AlwaysOnTime(s, es[..|es| - 1]))
  }

  /** Over every run with a moving clock: a non-empty queue has a deadline, at most its delay after it became
      non-empty, in every state of the run if and only if no turn of the loop forgets queries. */
  lemma {:induction false} WakeupsKeptExactly(s: State, es: seq<Event>)
    requires Initial(s) && AllTimed(es)
    ensures AlwaysOnTime(s, es) <==> NeverForgets(s, es)
  {
    hide Step, Forgets;
    if es != [] {
      var before := es[..|es| - 1];
      WakeupsKeptExactly(s, before);
      if AlwaysOnTime(s, before) {
        LastOnTime(s, before);
        StepOnTime(Run(s, before), es[|es| - 1]);
      }
    }
  }

  lemma LastOnTime(s: State, es: seq<Event>)
    requires Sound(s.link) && AllTimed(es) && AlwaysOnTime(s, es)
    ensures OnTime(Run(s, es))
  {
  }

  /** The clock stands still between the test and the flush. */
  predicate Still(es: seq<Event>)
  {
    forall i :: 0 <= i < |es| && es[i].Turn? ==> es[i].tested == es[i].flushed
  }

  /** With the clock at rest in every turn, no queue ever loses its deadline. */
  lemma {:induction false} NoLostWakeup(s: State, es: seq<Event>)
    requires Initial(s) && AllTimed(es) && Still(es)
    ensures AlwaysOnTime(s, es)
  {
    hide Step, OnTime;
    if es != [] {
      var before, e := es[..|es| - 1], es[|es| - 1];
      NoLostWakeup(s, before);
      LastOnTime(s, before);
      StepOnTime(Run(s, before), e);
      if e.Turn? { StillRemembers(Run(s, before).s, e.tested); }
    } else {
      assert OnTime(Run(s, es)) by { EmptyOnTime(s); }
    }
  }

  lemma EmptyOnTime(s: State)
    requires Initial(s)
    ensures OnTime(Run(s, []))
  {
  }

  lemma StillRemembers(s: State, now: real)
    ensures MustFlush(s, now) ==> !ForgetsQueries(Looked(s, now), now)
  {
    hide MustPing;
    UpdateSaltIdempotent(s.auth, now);
  }

  // ---------------------------------------------------------------------------------------------------------
  // A clock that moves
  // ---------------------------------------------------------------------------------------------------------

  /** A connection over TCP that is ready to send, in the background, with the clock of its server. */
  ghost predicate ReadyToSend(s: State)
  {
    && s.link.mode == Tcp && s.link.canSend && !s.link.turns && !s.link.online
    && !s.auth.usePfs && s.auth.hasMainKey && s.auth.timeDifference == 0.0 && !s.needDestroy
  }

  /** Nothing is waiting, and one salt is there until `until`. */
  ghost predicate Quiet(s: State, until: real, pingAt: real, saltsAt: real)
  {
    && ReadyToSend(s) && Sound(s.link) && !s.closed && !s.sentDestroy && s.queues == NO_QUEUES
    && s.auth.salt.validUntil == until && s.auth.futureSalts == [] && s.ping.at == pingAt && s.lastSaltAt == saltsAt
  }

  /** The first flush sends a ping and asks for salts. */
  lemma FirstFlush(s: State, until: real, now: real)
    requires Quiet(s, until, 0.0, 0.0) && now + 60.0 < until && now > 0.0
    ensures MustFlush(s, now) && Quiet(Flush(s, now).state, until, now, now)
  {
    hide Assemble, SentFlight, WaitFor, PingTimeout, NextId, Rtt;
    var p := PlanFor(s, now);
    var auth := AfterPing(s.auth, p.ping, now);
    assert p.ping && p.salts && p.take == 0 && !p.destroy;
    var payload := PayloadFor(s, p, auth.lastMessageId, now);
    PacketHasPing(payload, auth, now);
    assert OnlyAdvanced(auth, Assemble(payload, auth, now).auth);
  }

  /** And is the only one: then there is nothing more to do. */
  lemma QuietDrain(w: World, until: real, now: real)
    requires Quiet(w.s, until, 0.0, 0.0) && now + 60.0 < until && now > 0.0
    ensures Quiet(Drain(w, now).s, until, now, now) && Drain(w, now).log.since == w.log.since
  {
    hide Flush, Rtt;
    FirstFlush(w.s, until, now);
    FlushKeepsLink(w.s, now);
    var v := FlushStep(w, now);
    assert v.s == Flush(w.s, now).state && !MustFlush(v.s, now);
    assert Drain(v, now) == v.(s := Idle(v.s, now));
  }

  lemma Salted(w: World, now: real)
    requires Initial(w.s) && ReadyToSend(w.s) && now > 0.0
    ensures Quiet(Step(w, BadServerSalt(now, 7, 0)).s, now + 600.0, 0.0, 0.0)
  {
    hide Drain, Rtt;
    assert [0][1..] == [];
    assert FailEach(Held(NO_QUEUES, map[]), [0], now) == Held(NO_QUEUES, map[]);
  }

  /** A query submitted to a quiet session. */
  lemma Submitted(w: World, until: real, pingAt: real, saltsAt: real, data: Buffer, now: real)
    requires Quiet(w.s, until, pingAt, saltsAt) && now > 0.0
    ensures var r := Step(w, SendQuery(now, data, false, 0, [], false)).s;
            && r == w.s.(auth := r.auth, queues := r.queues) && OnlyAdvanced(w.s.auth, r.auth)
            && |r.queues.send| == 1 && r.queues == NO_QUEUES.(send := r.queues.send, deadline := now + QUERY_DELAY)
  {
    hide Drain, NextId;
  }

  lemma LateFlush(w: World)
    requires Sound(w.s.link) && !w.s.closed && ReadyToSend(w.s) && !w.s.sentDestroy
    requires w.s.auth.salt.validUntil == 1000.0 && w.s.auth.futureSalts == [] && w.s.ping.at == w.s.lastSaltAt == 920.0
    requires |w.s.queues.send| == 1 && w.s.queues == NO_QUEUES.(send := w.s.queues.send, deadline := 938.901)
    ensures Forgets(w, Turn(939.0, 941.0))
    ensures var r := Step(w, Turn(939.0, 941.0)).s; r.queues.send == w.s.queues.send && r.queues.deadline == 0.0
  {
    hide Assemble, Drain, Rtt;
    assert UpdateSalt(w.s.auth, 939.0) == w.s.auth;
    assert HasSalt(w.s.auth, 939.0) && !HasSalt(w.s.auth, 941.0);
    assert NothingToSend(w.s, PlanFor(w.s, 941.0));
  }

  /** With a clock that only moves forward a wakeup can be lost: the server gives a salt at 400 that is good for ten
      minutes, the session sends a ping and asks for salts at 920, a query comes at 938.9, the loop is tested at 939
      with the salt still good and flushes at 941 when it is not. The query stays, without a deadline. */
  lemma MovingClockLosesWakeup(s: State, data: Buffer) returns (es: seq<Event>)
    requires Initial(s) && ReadyToSend(s)
    ensures es == [BadServerSalt(400.0, 7, 0), BeforeWrite(920.0), SendQuery(938.9, data, false, 0, [], false),
                   Turn(939.0, 941.0)]
    ensures AllTimed(es)
    ensures var r := Run(s, es).s; |r.queues.send| == 1 && r.queues.deadline == 0.0
    ensures !NeverForgets(s, es) && !AlwaysOnTime(s, es)
  {
    hide Step, Run, NeverForgets, AlwaysOnTime, Forgets, ReadyToSend;
    var e1, e2, e3, e4 := BadServerSalt(400.0, 7, 0), BeforeWrite(920.0),
                          SendQuery(938.9, data, false, 0, [], false), Turn(939.0, 941.0);
    es := [e1, e2, e3, e4];
    FourEvents(s, e1, e2, e3, e4);
    QueryStranded(World(s, NOTHING_LOGGED), data);
    WakeupsKeptExactly(s, es);
  }

  lemma QueryStranded(w: World, data: Buffer)
    requires Initial(w.s) && ReadyToSend(w.s)
    ensures var w1 := Step(w, BadServerSalt(400.0, 7, 0));
            var w2 := Step(w1, BeforeWrite(920.0));
            var w3 := Step(w2, SendQuery(938.9, data, false, 0, [], false));
            var r := Step(w3, Turn(939.0, 941.0)).s;
            Forgets(w3, Turn(939.0, 941.0)) && |r.queues.send| == 1 && r.queues.deadline == 0.0
  {
    assert Sound(w.s.link);
    hide Step, Forgets, Initial, Quiet, ReadyToSend, Sound;
    var w1 := Step(w, BadServerSalt(400.0, 7, 0));
    var w2 := Step(w1, BeforeWrite(920.0));
    var w3 := Step(w2, SendQuery(938.9, data, false, 0, [], false));
    Salted(w, 400.0);
    Drained(w1);
    Submitted(w2, 1000.0, 920.0, 920.0, data, 938.9);
    Waiting(w2.s, w3.s);
    LateFlush(w3);
  }

  lemma FourEvents(s: State, a: Event, b: Event, c: Event, d: Event)
    requires Sound(s.link) && Timed(a) && Timed(b) && Timed(c) && Timed(d)
    ensures AllTimed([a, b, c, d])
    ensures var w := Step(Step(Step(World(s, NOTHING_LOGGED), a), b), c);
            Run(s, [a, b, c, d]) == Step(w, d) && (NeverForgets(s, [a, b, c, d]) ==> !Forgets(w, d))
  {
    hide Step, Run, NeverForgets, Forgets, Timed;
    FirstEvent(s, a);
    var two := [a] + [b];
    OneMore(s, [a], b);
    var three := two + [c];
    OneMore(s, two, c);
    OneMore(s, three, d);
    Listed(a, b, c, d);
  }

  lemma FirstEvent(s: State, e: Event)
    requires Sound(s.link) && Timed(e)
    ensures AllTimed([e]) && Run(s, [e]) == Step(World(s, NOTHING_LOGGED), e)
  {
    hide Step;
    assert [e][..0] == [];
  }

  lemma Listed<T>(a: T, b: T, c: T, d: T)
    ensures [a] + [b] + [c] + [d] == [a, b, c, d]
  {
  }

  lemma OneMore(s: State, es: seq<Event>, e: Event)
    requires Sound(s.link) && AllTimed(es) && Timed(e)
    ensures AllTimed(es + [e]) && Run(s, es + [e]) == Step(Run(s, es), e)
    ensures NeverForgets(s, es + [e]) <==> NeverForgets(s, es) && !Forgets(Run(s, es), e)
  {
    hide Step, Forgets;
    assert (es + [e])[..|es|] == es;
  }

  lemma Drained(w: World)
    requires Quiet(w.s, 1000.0, 0.0, 0.0)
    ensures Sound(w.s.link) && Quiet(Step(w, BeforeWrite(920.0)).s, 1000.0, 920.0, 920.0)
  {
    hide Drain;
    QuietDrain(w, 1000.0, 920.0);
  }

  lemma Waiting(s: State, r: State)
    requires Quiet(s, 1000.0, 920.0, 920.0)
    requires r == s.(auth := r.auth, queues := r.queues) && OnlyAdvanced(s.auth, r.auth)
    ensures Sound(r.link) && !r.closed && ReadyToSend(r) && !r.sentDestroy && r.auth.salt.validUntil == 1000.0
    ensures r.auth.futureSalts == [] && r.ping.at == r.lastSaltAt == 920.0
  {
  }

  // ---------------------------------------------------------------------------------------------------------
  // Queries leave in the order they came
  // ---------------------------------------------------------------------------------------------------------

  /** Sent queries, then waiting ones, then those handed back are the submitted ones, in order. */
  ghost predicate QueriesKept(w: World)
  {
    && w.log.sent + w.s.queues.send + w.log.returned == w.log.submitted
    && (w.log.returned != [] ==> w.s.closed)
  }

  lemma FlushQueries(s: State, now: real)
    ensures var f := Flush(s, now);
            && (f.payload.Some? <==> f.packet.Some?)
            && (f.payload.Some? ==> f.payload.value.queries + f.state.queues.send == s.queues.send)
            && (f.payload.None? ==> f.state.queues.send == s.queues.send)
            && f.state.closed == s.closed
  {
    hide Assemble, AfterPing, SendTill, SentFlight, SentPing, HasSalt, NeedFutureSalts, WaitFor, Cut;
    var p := PlanFor(s, now);
    assert s.queues.send == s.queues.send[..p.take] + s.queues.send[p.take..];
  }

  lemma FlushStepQueries(w: World, now: real)
    requires QueriesKept(w)
    ensures QueriesKept(FlushStep(w, now))
  {
    hide Flush;
    var f := Flush(w.s, now);
    FlushQueries(w.s, now);
    if f.payload.Some? {
      var taken := f.payload.value.queries;
      assert w.log.sent + w.s.queues.send + w.log.returned
             == (w.log.sent + taken) + f.state.queues.send + w.log.returned;
    }
  }

  lemma {:induction false} DrainQueries(w: World, now: real)
    requires now > 0.0 && Sound(w.s.link) && QueriesKept(w)
    ensures QueriesKept(Drain(w, now))
    decreases Work(w.s, now)
  {
    hide FlushStep, MustFlush, QueriesKept, Flush, Idle;
    if MustFlush(w.s, now) {
      FlushReducesWork(w.s, now);
      FlushKeepsLink(w.s, now);
      FlushStepQueries(w, now);
      FlushStepState(w, now);
      hide Work;
      DrainQueries(FlushStep(w, now), now);
    } else {
      IdleQueries(w, now);
    }
  }

  lemma IdleQueries(w: World, now: real)
    requires QueriesKept(w)
    ensures QueriesKept(w.(s := Idle(w.s, now)))
  {
    hide UpdateSalt;
  }

  lemma TurnQueries(w: World, tested: real, flushed: real)
    requires Sound(w.s.link) && QueriesKept(w)
    ensures QueriesKept(TurnStep(w, tested, flushed))
  {
    hide FlushStep, MustFlush, UpdateSalt;
    if MustFlush(w.s, tested) { FlushStepQueries(w.(s := Looked(w.s, tested)), flushed); }
  }

  lemma FlushStepState(w: World, now: real)
    ensures FlushStep(w, now).s == Flush(w.s, now).state
  {
    hide Flush;
  }

  lemma FailKeepsQueries(w: World, id: nat, now: real)
    requires QueriesKept(w)
    ensures QueriesKept(FailStep(w, id, now))
  {
    hide FailEach;
    var f := w.s.flight;
    FailEachKeepsSend(Held(w.s.queues, f.service), if id in f.containers then f.containers[id] else [id], now);
  }

  lemma SendQueryKept(w: World, e: Event)
    requires e.SendQuery? && !w.s.closed && QueriesKept(w)
    ensures QueriesKept(SendQueryStep(w, e))
  {
    hide NextId;
    assert w.log.returned == [];
  }

  lemma StepQueries(w: World, e: Event)
    requires Sound(w.s.link) && Timed(e) && QueriesKept(w)
    ensures QueriesKept(Step(w, e))
  {
    if w.s.closed {
    } else if Routine(e) {
      hide Step;
      RoutineEffect(w, e);
    } else {
      hide Drain, FailStep, SendQueryStep, TurnStep;
      match e
      case SendQuery(_, _, _, _, _, _) => SendQueryKept(w, e);
      case MessageFailed(now, id) => FailKeepsQueries(w, id, now);
      case BadServerSalt(now, salt, id) =>
        FailKeepsQueries(w.(s := Resalted(w.s, salt, now)), id, now);
      case BeforeWrite(now) => DrainQueries(w, now);
      case Turn(tested, flushed) => TurnQueries(w, tested, flushed);
      case _ =>
    }
  }

  /** At all times the queries sent so far followed by the queries still waiting are exactly the submitted
      queries, in the order of submission; only a session that failed has handed some back. */
  lemma {:induction false} QueriesConserved(s: State, es: seq<Event>)
    requires Initial(s) && AllTimed(es)
    ensures QueriesKept(Run(s, es))
  {
    hide Step;
    if es != [] {
      QueriesConserved(s, es[..|es| - 1]);
      StepQueries(Run(s, es[..|es| - 1]), es[|es| - 1]);
    }
  }
}
