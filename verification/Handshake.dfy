/** The handshake that creates an authorization key: three queries, three replies, and what is checked in between.
    Parsing and decryption of replies, the primality checks and hashes are abstract. */
module Handshake {
  import opened Bytes
  import opened Options
  import opened KeyAgreement

  datatype State = Start | ResPQ | ServerDHParams | DHGenResponse | Finish

  /** The decrypted answer of the server with its half of the exchange. */
  datatype Inner = Inner(nonce: nat, serverNonce: nat, g: nat, prime: nat, gA: nat)

  /** A reply as the parser for the expected type sees it. `keyKnown`, `factored` and `fits` say whether one of the
      offered server keys is known, `pq` could be factorized, and the data to encrypt is short enough. */
  datatype Reply = PqReply(nonce: nat, serverNonce: nat, keyKnown: bool, factored: bool, fits: bool)
                 | DhReply(nonce: nat, serverNonce: nat, encrypted: seq<byte>)
                 | GenOk(nonce: nat, serverNonce: nat, hash: nat)
                 | GenFail | GenRetry | Garbled

  datatype Query = ReqPq(nonce: nat)
                 | ReqDhParams(nonce: nat, serverNonce: nat, newNonce: nat)
                 | SetClientDhParams(nonce: nat, serverNonce: nat, newNonce: nat, gB: nat)

  /** `open` decrypts an answer with the key derived from both nonces and checks its hash and padding. */
  datatype Env = Env(open: (nat, nat, seq<byte>) -> Option<Inner>, goodPrime: (nat, nat) -> bool,
                     nonceHash: (nat, nat) -> nat)

  datatype Fields = Fields(state: State, nonce: nat, serverNonce: nat, newNonce: nat, key: nat, salt: nat,
                           lastQuery: Option<Query>, startTime: real, timeoutIn: real)

  const NEVER := 1000000000.0

  function Clear(f: Fields, now: real): Fields
  {
    f.(state := Start, lastQuery := None, startTime := now, timeoutIn := NEVER)
  }

  /** What a handler leaves behind, whether it was satisfied, and what it sent. */
  datatype Handled = Handled(f: Fields, ok: bool, sent: seq<Query>)

  function Sending(f: Fields, q: Query, next: State): Handled
  {
    Handled(f.(lastQuery := Some(q), state := next), true, [q])
  }

  function OnStart(f: Fields, nonce: nat, now: real): Handled
  {
    if !f.state.Start? then Handled(Clear(f, now), false, []) else Sending(f.(nonce := nonce), ReqPq(nonce), ResPQ)
  }

  function OnResPq(f: Fields, r: Reply, now: real, newNonce: nat): Handled
  {
    if now >= f.startTime + f.timeoutIn * 0.6 || !r.PqReply? || r.nonce != f.nonce then Handled(f, false, [])
    else
      var named := f.(serverNonce := r.serverNonce);
      if !r.keyKnown || !r.factored then Handled(named, false, [])
      else if !r.fits then Handled(named.(newNonce := newNonce), false, [])
      else
        var drawn := named.(newNonce := newNonce);
        Sending(drawn, ReqDhParams(drawn.nonce, drawn.serverNonce, newNonce), ServerDHParams)
  }

  /** The checks on the parameters, the server's power and one's own. */
  predicate ChecksPass(env: Env, inner: Inner, b: nat)
  {
    && 0 < inner.prime && Bits(inner.prime) == PRIME_BITS && env.goodPrime(inner.g, inner.prime)
    && InRange(inner.prime, inner.gA, ModExp(inner.g, b, inner.prime))
  }

  function OnServerDhParams(env: Env, f: Fields, r: Reply, now: real, b: nat): Handled
  {
    if now >= f.startTime + f.timeoutIn * 0.8 || !r.DhReply? || r.nonce != f.nonce || r.serverNonce != f.serverNonce
       || |r.encrypted| % 16 != 0 then Handled(f, false, [])
    else
      match env.open(f.serverNonce, f.newNonce, r.encrypted)
      case None => Handled(f, false, [])
      case Some(inner) =>
        if inner.nonce != f.nonce || inner.serverNonce != f.serverNonce || !ChecksPass(env, inner, b) then
          Handled(f, false, [])
        else
          var keyed := f.(key := ModExp(inner.gA, b, inner.prime),
                          salt := Xor(f.newNonce % 0x1_0000_0000_0000_0000, f.serverNonce % 0x1_0000_0000_0000_0000));
          Sending(keyed, SetClientDhParams(f.nonce, f.serverNonce, f.newNonce, ModExp(inner.g, b, inner.prime)),
                  DHGenResponse)
  }

  function OnDhGenResponse(env: Env, f: Fields, r: Reply): Handled
  {
    if !r.GenOk? || r.nonce != f.nonce || r.serverNonce != f.serverNonce
       || r.hash != env.nonceHash(f.newNonce, f.key) then
      Handled(f, false, [])
    else Handled(f.(state := Finish), true, [])
  }

  function OnMessage(env: Env, f: Fields, r: Reply, now: real, newNonce: nat, b: nat): Handled
    requires !f.state.Start? && !f.state.Finish?
  {
    var h := match f.state
             case ResPQ => OnResPq(f, r, now, newNonce)
             case ServerDHParams => OnServerDhParams(env, f, r, now, b)
             case DHGenResponse => OnDhGenResponse(env, f, r);
    if h.ok then h else Handled(Clear(h.f, now), false, h.sent)
  }

  function Resume(f: Fields, nonce: nat, now: real): Handled
  {
    if f.state.Start? then OnStart(f, nonce, now)
    else if f.state.Finish? || f.lastQuery.None? then Handled(Clear(f, now), false, [])
    else Handled(f, true, [f.lastQuery.value])
  }

  // ---------------------------------------------------------------------------------------------------------
  // Runs
  // ---------------------------------------------------------------------------------------------------------

  /** Random values come with the events that draw them. Messages are delivered only while a reply is expected. */
  datatype Event = Resumed(nonce: nat, now: real) | Arrived(reply: Reply, now: real, newNonce: nat, b: nat)
                 | Released(now: real) | Timed(now: real, timeoutIn: real)

  /** The handshake, the replies accepted since it last started, the secret exponent in use, and all queries sent. */
  datatype World = World(f: Fields, trail: seq<Reply>, secret: nat, sent: seq<Query>)

  function Apply(env: Env, w: World, e: Event): World
  {
    match e
    case Resumed(nonce, now) =>
      var h := Resume(w.f, nonce, now);
      World(h.f, if w.f.state.Start? then [] else w.trail, w.secret, w.sent + h.sent)
    case Arrived(reply, now, newNonce, b) =>
      if w.f.state.Start? || w.f.state.Finish? then w
      else
        var h := OnMessage(env, w.f, reply, now, newNonce, b);
        World(h.f, if h.ok then w.trail + [reply] else w.trail,
              if w.f.state.ServerDHParams? then b else w.secret, w.sent + h.sent)
    case Released(now) => w.(f := Clear(w.f, now))
    case Timed(now, timeoutIn) => w.(f := w.f.(startTime := now, timeoutIn := timeoutIn))
  }

  function Run(env: Env, w: World, es: seq<Event>): World
    decreases |es|
  {
    if es == [] then w else Run(env, Apply(env, w, es[0]), es[1..])
  }

  ghost predicate Fresh(w: World)
  {
    w.f.state.Start? && w.f.lastQuery.None? && w.trail == [] && w.sent == []
  }

  // ---------------------------------------------------------------------------------------------------------
  // What every event keeps
  // ---------------------------------------------------------------------------------------------------------

  /** A reply to this run's first query, chosen server key and all. */
  ghost predicate GoodPq(f: Fields, r: Reply)
  {
    r == PqReply(f.nonce, f.serverNonce, true, true, true)
  }

  /** A reply to this run's second query whose contents pass all checks, and the key and first
      salt computed from it. */
  ghost predicate GoodDh(env: Env, f: Fields, secret: nat, r: Reply)
  {
    && r.DhReply? && r.nonce == f.nonce && r.serverNonce == f.serverNonce
    && env.open(f.serverNonce, f.newNonce, r.encrypted).Some?
    && var inner := env.open(f.serverNonce, f.newNonce, r.encrypted).value;
       && inner.nonce == f.nonce && inner.serverNonce == f.serverNonce && ChecksPass(env, inner, secret)
       && f.key == ModExp(inner.gA, secret, inner.prime)
       && f.salt == Xor(f.newNonce % 0x1_0000_0000_0000_0000, f.serverNonce % 0x1_0000_0000_0000_0000)
  }

  ghost predicate GoodEnd(env: Env, f: Fields, r: Reply)
  {
    r == GenOk(f.nonce, f.serverNonce, env.nonceHash(f.newNonce, f.key))
  }

  ghost predicate Inv(env: Env, w: World)
  {
    var f := w.f;
    match f.state
    case Start => f.lastQuery.None?
    case ResPQ => w.trail == [] && f.lastQuery == Some(ReqPq(f.nonce))
    case ServerDHParams =>
      && |w.trail| == 1 && GoodPq(f, w.trail[0])
      && f.lastQuery == Some(ReqDhParams(f.nonce, f.serverNonce, f.newNonce))
    case DHGenResponse =>
      && |w.trail| == 2 && GoodPq(f, w.trail[0]) && GoodDh(env, f, w.secret, w.trail[1])
      && f.lastQuery == Some(SetClientDhParams(f.nonce, f.serverNonce, f.newNonce,
                                               OwnPower(env, f, w.secret, w.trail[1])))
    case Finish =>
      && |w.trail| == 3 && GoodPq(f, w.trail[0]) && GoodDh(env, f, w.secret, w.trail[1]) && GoodEnd(env, f, w.trail[2])
      && f.lastQuery == Some(SetClientDhParams(f.nonce, f.serverNonce, f.newNonce,
                                               OwnPower(env, f, w.secret, w.trail[1])))
  }

  ghost function OwnPower(env: Env, f: Fields, secret: nat, r: Reply): nat
    requires GoodDh(env, f, secret, r)
  {
    var inner := env.open(f.serverNonce, f.newNonce, r.encrypted).value;
    ModExp(inner.g, secret, inner.prime)
  }

  lemma MessageKeeps(env: Env, w: World, e: Event)
    requires Inv(env, w) && e.Arrived?
    ensures Inv(env, Apply(env, w, e))
  {
    hide Bits, InRange, Xor, ModExp, ChecksPass;
  }

  lemma EventKeeps(env: Env, w: World, e: Event)
    requires Inv(env, w)
    ensures Inv(env, Apply(env, w, e))
  {
    hide ChecksPass, OnMessage, ModExp;
    if e.Arrived? { MessageKeeps(env, w, e); }
  }

  lemma {:induction false} RunKeeps(env: Env, w: World, es: seq<Event>)
    requires Inv(env, w)
    ensures Inv(env, Run(env, w, es))
    decreases |es|
  {
    hide Inv, Apply;
    if es != [] {
      EventKeeps(env, w, es[0]);
      RunKeeps(env, Apply(env, w, es[0]), es[1..]);
    }
  }

  // ---------------------------------------------------------------------------------------------------------
  // The handshake over whole runs
  // ---------------------------------------------------------------------------------------------------------

  /** The handshake finishes only after three accepted replies that carry the nonces of this very run, with all checks
      passed and the key confirmed. */
  lemma FinishedProperly(env: Env, w: World, es: seq<Event>)
    requires Fresh(w) && Run(env, w, es).f.state.Finish?
    ensures var r := Run(env, w, es);
            && |r.trail| == 3 && GoodPq(r.f, r.trail[0]) && GoodDh(env, r.f, r.secret, r.trail[1])
            && GoodEnd(env, r.f, r.trail[2])
  {
    hide Run;
    RunKeeps(env, w, es);
  }

  /** While a reply is awaited there is a last query, and resuming sends exactly that once more and changes nothing. */
  lemma ResumeResends(env: Env, w: World, es: seq<Event>, nonce: nat, now: real)
    requires Fresh(w) && !Run(env, w, es).f.state.Start? && !Run(env, w, es).f.state.Finish?
    ensures var r := Run(env, w, es);
            r.f.lastQuery.Some? && Apply(env, r, Resumed(nonce, now)) == r.(sent := r.sent + [r.f.lastQuery.value])
  {
    hide Run;
    RunKeeps(env, w, es);
  }

  /** When the handshake has finished with a server that drew `a`, the server can compute the same key from what the
      client sent. */
  lemma KeyIsShared(env: Env, w: World, es: seq<Event>, a: nat)
    requires Fresh(w) && Run(env, w, es).f.state.Finish?
    requires var r := Run(env, w, es);
             && |r.trail| == 3 && r.trail[1].DhReply?
             && var inner := env.open(r.f.serverNonce, r.f.newNonce, r.trail[1].encrypted);
                inner.Some? && inner.value.prime > 0 && inner.value.gA == ModExp(inner.value.g, a, inner.value.prime)
    ensures var r := Run(env, w, es);
            var inner := env.open(r.f.serverNonce, r.f.newNonce, r.trail[1].encrypted).value;
            && r.f.lastQuery.Some? && r.f.lastQuery.value.SetClientDhParams?
            && r.f.key == ModExp(r.f.lastQuery.value.gB, a, inner.prime)
  {
    hide Run, ChecksPass, ModExp;
    RunKeeps(env, w, es);
    var r := Run(env, w, es);
    var inner := env.open(r.f.serverNonce, r.f.newNonce, r.trail[1].encrypted).value;
    SameKey(inner.g, a, r.secret, inner.prime);
  }

  lemma {:induction false} RunAppend(env: Env, w: World, a: seq<Event>, b: seq<Event>)
    ensures Run(env, w, a + b) == Run(env, Run(env, w, a), b)
    decreases |a|
  {
    hide Apply;
    if a == [] {
      assert a + b == b;
    } else {
      RunAppend(env, Apply(env, w, a[0]), a[1..], b);
      assert (a + b)[1..] == a[1..] + b;
    }
  }

  lemma RunOne(env: Env, w: World, e: Event)
    ensures Run(env, w, [e]) == Apply(env, w, e)
  {
    hide Apply;
    assert [e][1..] == [];
  }

  /** At the start nothing happens until the handshake is resumed. */
  lemma {:induction false} StartWaits(env: Env, w: World, es: seq<Event>)
    requires w.f.state.Start? && forall i :: 0 <= i < |es| ==> !es[i].Resumed?
    ensures Run(env, w, es).f.state.Start? && Run(env, w, es).sent == w.sent
    decreases |es|
  {
    if es != [] {
      hide OnMessage, Resume;
      StartWaits(env, Apply(env, w, es[0]), es[1..]);
    }
  }

  /** After a reply that is not accepted, at any point of any run, the handshake ignores everything and sends nothing
      until it is resumed, and then starts over: one first query with a new nonce, no reply accepted so far. */
  lemma RefusalStartsOver(env: Env, w: World, es: seq<Event>, refused: Event, between: seq<Event>, nonce: nat,
                          now: real)
    requires forall i :: 0 <= i < |between| ==> !between[i].Resumed?
    requires var r := Run(env, w, es);
             && refused.Arrived? && !r.f.state.Start? && !r.f.state.Finish?
             && !OnMessage(env, r.f, refused.reply, refused.now, refused.newNonce, refused.b).ok
    ensures var r := Run(env, w, es + [refused] + between + [Resumed(nonce, now)]);
            && r.f.state.ResPQ? && r.f.nonce == nonce && r.f.lastQuery == Some(ReqPq(nonce))
            && r.trail == [] && r.sent == Run(env, w, es).sent + [ReqPq(nonce)]
  {
    hide Run;
    var r := Run(env, w, es);
    var cleared := Apply(env, r, refused);
    RefusalClears(env, r, refused);
    RunAppend(env, w, es, [refused]);
    RunOne(env, r, refused);
    RunAppend(env, w, es + [refused], between);
    StartWaits(env, cleared, between);
    RunAppend(env, w, es + [refused] + between, [Resumed(nonce, now)]);
    RunOne(env, Run(env, cleared, between), Resumed(nonce, now));
  }

  lemma RefusalClears(env: Env, w: World, e: Event)
    requires e.Arrived? && !w.f.state.Start? && !w.f.state.Finish?
    requires !OnMessage(env, w.f, e.reply, e.now, e.newNonce, e.b).ok
    ensures Apply(env, w, e).f.state.Start? && Apply(env, w, e).sent == w.sent
  {
    hide ChecksPass, ModExp;
    assert w.sent + [] == w.sent;
  }

  // ---------------------------------------------------------------------------------------------------------
  // The object
  // ---------------------------------------------------------------------------------------------------------

  class AuthKeyHandshake {
    var state: State
    var nonce: nat
    var serverNonce: nat
    var newNonce: nat
    var authKey: nat
    var serverSalt: nat
    var lastQuery: Option<Query>
    var startTime: real
    var timeoutIn: real
    var outbox: seq<Query>

    function View(): Fields
      reads this
    {
      Fields(state, nonce, serverNonce, newNonce, authKey, serverSalt, lastQuery, startTime, timeoutIn)
    }

    constructor (now: real)
      ensures state.Start? && lastQuery.None? && outbox == [] && startTime == now && timeoutIn == NEVER
    {
      state, nonce, serverNonce, newNonce, authKey, serverSalt, lastQuery := Start, 0, 0, 0, 0, 0, None;
      startTime, timeoutIn, outbox := now, NEVER, [];
    }

    method ClearAll(now: real)
      modifies `state, `lastQuery, `startTime, `timeoutIn
      ensures View() == Clear(old(View()), now)
    {
      lastQuery, state, startTime, timeoutIn := None, Start, now, NEVER;
    }

    method SendQuery(q: Query)
      modifies `lastQuery, `outbox
      ensures lastQuery == Some(q) && outbox == old(outbox) + [q]
    {
      lastQuery := Some(q);
      outbox := outbox + [q];
    }

    method StartUp(random: nat, now: real) returns (ok: bool)
      modifies this
      ensures var h := OnStart(old(View()), random, now); View() == h.f && ok == h.ok && outbox == old(outbox) + h.sent
    {
      if !state.Start? {
        ClearAll(now);
        return false;
      }
      nonce := random;
      SendQuery(ReqPq(nonce));
      state := ResPQ;
      ok := true;
    }

    method HandleResPq(r: Reply, now: real, random: nat) returns (ok: bool)
      modifies this
      ensures var h := OnResPq(old(View()), r, now, random);
              View() == h.f && ok == h.ok && outbox == old(outbox) + h.sent
    {
      if now >= startTime + timeoutIn * 0.6 || !r.PqReply? { return false; }
      if r.nonce != nonce { return false; }
      serverNonce := r.serverNonce;
      if !r.keyKnown || !r.factored { return false; }
      newNonce := random;
      if !r.fits { return false; }
      SendQuery(ReqDhParams(nonce, serverNonce, newNonce));
      state := ServerDHParams;
      ok := true;
    }

    method HandleServerDhParams(env: Env, r: Reply, now: real, b: nat) returns (ok: bool)
      modifies this
      ensures var h := OnServerDhParams(env, old(View()), r, now, b);
              View() == h.f && ok == h.ok && outbox == old(outbox) + h.sent
    {
      hide Bits, InRange, Xor, ModExp;
      if now >= startTime + timeoutIn * 0.8 || !r.DhReply? { return false; }
      if r.nonce != nonce || r.serverNonce != serverNonce || |r.encrypted| % 16 != 0 { return false; }
      var answer := env.open(serverNonce, newNonce, r.encrypted);
      if answer.None? { return false; }
      var inner := answer.value;
      if inner.nonce != nonce || inner.serverNonce != serverNonce || !ChecksPass(env, inner, b) { return false; }
      var gB := ModExp(inner.g, b, inner.prime);
      SendQuery(SetClientDhParams(nonce, serverNonce, newNonce, gB));
      authKey := ModExp(inner.gA, b, inner.prime);
      serverSalt := Xor(newNonce % 0x1_0000_0000_0000_0000, serverNonce % 0x1_0000_0000_0000_0000);
      state := DHGenResponse;
      ok := true;
    }

    method HandleDhGenResponse(env: Env, r: Reply) returns (ok: bool)
      modifies `state
      ensures var h := OnDhGenResponse(env, old(View()), r); View() == h.f && ok == h.ok && h.sent == []
    {
      if !r.GenOk? || r.nonce != nonce || r.serverNonce != serverNonce || r.hash != env.nonceHash(newNonce, authKey) {
        return false;
      }
      state := Finish;
      ok := true;
    }

    method HandleMessage(env: Env, r: Reply, now: real, random: nat, b: nat) returns (ok: bool)
      requires !state.Start? && !state.Finish?
      modifies this
      ensures var h := OnMessage(env, old(View()), r, now, random, b);
              View() == h.f && ok == h.ok && outbox == old(outbox) + h.sent
    {
      hide OnResPq, OnServerDhParams, OnDhGenResponse;
      match state {
        case ResPQ => ok := HandleResPq(r, now, random);
        case ServerDHParams => ok := HandleServerDhParams(env, r, now, b);
        case DHGenResponse => ok := HandleDhGenResponse(env, r);
      }
      assert old(outbox) + [] == old(outbox);
      if !ok { ClearAll(now); }
    }

    method ResumeAll(random: nat, now: real) returns (ok: bool)
      modifies this
      ensures var h := Resume(old(View()), random, now); View() == h.f && ok == h.ok && outbox == old(outbox) + h.sent
    {
      if state.Start? {
        ok := StartUp(random, now);
        return;
      }
      assert old(outbox) + [] == old(outbox);
      if state.Finish? || lastQuery.None? {
        ClearAll(now);
        return false;
      }
      outbox := outbox + [lastQuery.value];
      ok := true;
    }
  }
}
