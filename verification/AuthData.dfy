/** The authorisation data a session shares with its connection: message identifier and sequence number
    allocation, and the salt schedule. */
module AuthData {
  import opened Bytes
  import opened Options

  const TWO_32: nat := 0x1_0000_0000
  const TWO_64: nat := 0x1_0000_0000_0000_0000
  const TWO_22: nat := 0x40_0000

  datatype ServerSalt = ServerSalt(salt: int, validSince: real, validUntil: real)

  /** The mutable part of the authorisation data.

      `rng` is the stream of random 32-bit words and `drawn` how many were used: a statement about every `rng`
      is a statement about every outcome of the random generator. */
  datatype Auth = Auth(
    usePfs: bool, hasMainKey: bool, tmpKeyExpiresAt: Option<real>,
    timeDifference: real, salt: ServerSalt, futureSalts: seq<ServerSalt>,
    lastMessageId: nat, seqNo: nat, rng: nat -> nat, drawn: nat)

  function ServerTime(a: Auth, now: real): real
  {
    a.timeDifference + now
  }

  predicate HasAuthKey(a: Auth, now: real)
  {
    if a.usePfs then a.tmpKeyExpiresAt.Some? && now <= a.tmpKeyExpiresAt.value else a.hasMainKey
  }

  // ---------------------------------------------------------------------------------------------------------
  // Message identifiers
  // ---------------------------------------------------------------------------------------------------------

  /** The server time in units of 2^-32 seconds. A negative time has no defined conversion in the original. */
  function ClockTicks(serverTime: real): nat
  {
    if serverTime < 0.0 then 0 else (serverTime * 4294967296.0).Floor
  }

  /** The identifier the clock suggests: its 22 low bits are randomised and the last two cleared. */
  function ClockId(serverTime: real, rx: nat): (id: nat)
    ensures id % 4 == 0
  {
    var t := Xor(ClockTicks(serverTime), rx % TWO_22);
    t / 4 * 4
  }

  /** The step taken past the last identifier when the clock did not move on: a multiple of 8 up to 8192. */
  function BumpStep(rx: nat): (step: nat)
    ensures step % 8 == 0 && 8 <= step <= 8192
  {
    8 * (rx / TWO_22 % 1024 + 1)
  }

  function NextId(last: nat, serverTime: real, rx: nat): (id: nat)
    ensures last < id
    ensures last % 4 == 0 ==> id % 4 == 0
  {
    var id := ClockId(serverTime, rx);
    if last >= id then last + BumpStep(rx) else id
  }

  /** The same computation in 64-bit unsigned arithmetic, as the original performs it. */
  function NextId64(last: nat, serverTime: real, rx: nat): (id: nat)
    ensures id < TWO_64
  {
    var t := Xor(ClockTicks(serverTime) % TWO_64, rx % TWO_22) % TWO_64;
    var id := t / 4 * 4;
    if last >= id then (last + BumpStep(rx)) % TWO_64 else id
  }

  /** While the server clock fits 64 bits, the 64-bit allocator gives a larger identifier than the last one
      exactly when the addition does not wrap, and then it is the identifier of the unbounded allocator. */
  lemma MachineIdExact(last: nat, serverTime: real, rx: nat)
    requires last < TWO_64
    requires ClockTicks(serverTime) < TWO_64
    ensures last < NextId64(last, serverTime, rx) <==> NextId(last, serverTime, rx) < TWO_64
    ensures NextId(last, serverTime, rx) < TWO_64 ==> NextId64(last, serverTime, rx) == NextId(last, serverTime, rx)
  {
    hide Xor, ClockTicks, BumpStep, PowerOfTwo;
    MachineWords();
    XorBound(ClockTicks(serverTime), rx % TWO_22, TWO_64);
    ModSmall(ClockTicks(serverTime), TWO_64);
    ModSmall(Xor(ClockTicks(serverTime), rx % TWO_22), TWO_64);
    if last >= ClockId(serverTime, rx) && last + BumpStep(rx) >= TWO_64 {
      DivModUnique(last + BumpStep(rx), TWO_64, 1, last + BumpStep(rx) - TWO_64);
    }
  }

  /** `b` differs from `a` at most by allocations made since. */
  predicate OnlyAdvanced(a: Auth, b: Auth)
  {
    && a.lastMessageId <= b.lastMessageId
    && b.usePfs == a.usePfs && b.hasMainKey == a.hasMainKey && b.tmpKeyExpiresAt == a.tmpKeyExpiresAt
    && b.timeDifference == a.timeDifference && b.salt == a.salt && b.futureSalts == a.futureSalts
  }

  datatype Allocated = Allocated(id: nat, seqNo: nat, auth: Auth)

  function WithNextId(a: Auth, now: real): (r: Auth)
    ensures a.lastMessageId < r.lastMessageId
    ensures r.seqNo == a.seqNo && OnlyAdvanced(a, r)
  {
    a.(lastMessageId := NextId(a.lastMessageId, ServerTime(a, now), a.rng(a.drawn)), drawn := a.drawn + 1)
  }

  /** A message identifier together with a sequence number, as every outgoing message takes them. */
  function Allocate(a: Auth, now: real, contentRelated: bool): (r: Allocated)
    ensures OnlyAdvanced(a, r.auth) && a.lastMessageId < r.id == r.auth.lastMessageId
  {
    var a1 := WithNextId(a, now);
    var (seqNo, next) := NextSeqNo(a1.seqNo, contentRelated);
    Allocated(a1.lastMessageId, seqNo, a1.(seqNo := next))
  }

  function NextSeqNo(seqNo: nat, contentRelated: bool): (nat, nat)
  {
    if contentRelated then (seqNo / 2 * 2 + 1, seqNo + 2) else (seqNo, seqNo)
  }

  /** A run of allocations, `kinds[i]` telling whether the i-th message is content-related. */
  function AllocateAll(a: Auth, times: seq<real>, kinds: seq<bool>): (r: (seq<(nat, nat)>, Auth))
    requires |times| == |kinds|
    ensures |r.0| == |kinds|
    decreases |kinds|
  {
    if kinds == [] then ([], a)
    else
      var first := Allocate(a, times[0], kinds[0]);
      var (rest, last) := AllocateAll(first.auth, times[1..], kinds[1..]);
      ([(first.id, first.seqNo)] + rest, last)
  }

  ghost predicate Fresh(a: Auth)
  {
    a.lastMessageId % 4 == 0 && a.seqNo % 2 == 0
  }

  /** Identifiers lie in (first, last] and are multiples of 4; sequence numbers lie in [first, last]. */
  ghost predicate Within(pairs: seq<(nat, nat)>, kinds: seq<bool>, first: (nat, nat), last: (nat, nat))
    requires |pairs| == |kinds|
  {
    && first.0 <= last.0 && first.1 <= last.1
    && forall i :: 0 <= i < |pairs| ==>
         && first.0 < pairs[i].0 <= last.0 && pairs[i].0 % 4 == 0
         && first.1 <= pairs[i].1 <= last.1 && (pairs[i].1 % 2 == 1 <==> kinds[i])
  }

  ghost predicate Ordered(pairs: seq<(nat, nat)>, kinds: seq<bool>)
    requires |pairs| == |kinds|
  {
    forall i, j :: 0 <= i < j < |pairs| ==>
      && pairs[i].0 < pairs[j].0
      && pairs[i].1 <= pairs[j].1
      && (kinds[i] ==> pairs[i].1 < pairs[j].1)
  }

  /** Over every run of allocations: identifiers are strictly increasing multiples of 4 above everything issued
      before, a smaller identifier never has a larger sequence number, and a content-related message (and only
      such a message has an odd number) has a strictly smaller one than every later message. */
  lemma {:induction false} AllocationDiscipline(a: Auth, times: seq<real>, kinds: seq<bool>)
    requires |times| == |kinds| && Fresh(a)
    ensures var (pairs, last) := AllocateAll(a, times, kinds);
            Fresh(last) && Within(pairs, kinds, Position(a), Position(last)) && Ordered(pairs, kinds)
    decreases |kinds|
  {
    hide NextId;
    if kinds != [] {
      var first := Allocate(a, times[0], kinds[0]);
      var (rest, last) := AllocateAll(first.auth, times[1..], kinds[1..]);
      AllocationDiscipline(first.auth, times[1..], kinds[1..]);
      AllocateAdvances(a, times[0], kinds[0]);
      PrependOrdered((first.id, first.seqNo), kinds[0], rest, kinds[1..], Position(a), Position(first.auth),
                     Position(last));
      assert kinds == [kinds[0]] + kinds[1..];
    }
  }

  ghost function Position(a: Auth): (nat, nat)
  {
    (a.lastMessageId, a.seqNo)
  }

  lemma AllocateAdvances(a: Auth, now: real, contentRelated: bool)
    requires Fresh(a)
    ensures var r := Allocate(a, now, contentRelated);
            && Fresh(r.auth) && a.lastMessageId < r.id == r.auth.lastMessageId
            && a.seqNo <= r.seqNo <= r.auth.seqNo
            && (contentRelated ==> r.seqNo % 2 == 1 && r.seqNo < r.auth.seqNo)
            && (!contentRelated ==> r.seqNo % 2 == 0)
  {
  }

  lemma PrependOrdered(pair: (nat, nat), kind: bool, rest: seq<(nat, nat)>, kinds: seq<bool>,
                       first: (nat, nat), mid: (nat, nat), last: (nat, nat))
    requires |rest| == |kinds| && Within(rest, kinds, mid, last) && Ordered(rest, kinds)
    requires first.0 < pair.0 == mid.0 && pair.0 % 4 == 0
    requires first.1 <= pair.1 <= mid.1 && (pair.1 % 2 == 1 <==> kind) && (kind ==> pair.1 < mid.1)
    ensures Within([pair] + rest, [kind] + kinds, first, last) && Ordered([pair] + rest, [kind] + kinds)
  {
  }

  // ---------------------------------------------------------------------------------------------------------
  // Salts
  // ---------------------------------------------------------------------------------------------------------

  predicate SaltValid(a: Auth, now: real)
  {
    a.salt.validUntil > ServerTime(a, now) + 60.0
  }

  /** A salt and the schedule of the salts after it. */
  datatype Schedule = Schedule(salt: ServerSalt, future: seq<ServerSalt>)

  /** Adopts every scheduled salt that has begun by time `t`, the last of the list first. */
  function Adopt(s: Schedule, t: real): (r: Schedule)
    ensures r.future <= s.future
    ensures r.future != [] ==> r.future[|r.future| - 1].validSince >= t
    decreases |s.future|
  {
    var n := |s.future|;
    if n > 0 && s.future[n - 1].validSince < t then Adopt(Schedule(s.future[n - 1], s.future[..n - 1]), t) else s
  }

  function UpdateSalt(a: Auth, now: real): (r: Auth)
    ensures r == a.(salt := r.salt, futureSalts := r.futureSalts)
  {
    var s := Adopt(Schedule(a.salt, a.futureSalts), ServerTime(a, now));
    a.(salt := s.salt, futureSalts := s.future)
  }

  lemma ScheduleDecides(a: Auth, b: Auth, now: real)
    requires OnlyAdvanced(a, b)
    ensures UpdateSalt(a, now).salt == UpdateSalt(b, now).salt
    ensures UpdateSalt(a, now).futureSalts == UpdateSalt(b, now).futureSalts
    ensures HasSalt(a, now) == HasSalt(b, now) && NeedFutureSalts(a, now) == NeedFutureSalts(b, now)
  {
  }

  predicate HasSalt(a: Auth, now: real)
  {
    SaltValid(UpdateSalt(a, now), now)
  }

  predicate NeedFutureSalts(a: Auth, now: real)
  {
    var r := UpdateSalt(a, now);
    r.futureSalts == [] || !SaltValid(r, now)
  }

  lemma UpdateSaltIdempotent(a: Auth, now: real)
    ensures UpdateSalt(UpdateSalt(a, now), now) == UpdateSalt(a, now)
  {
  }

  ghost predicate NewestFirst(salts: seq<ServerSalt>)
  {
    forall i, j :: 0 <= i < j < |salts| ==> salts[i].validSince >= salts[j].validSince
  }

  ghost predicate NotBegun(salts: seq<ServerSalt>, t: real)
  {
    forall i :: 0 <= i < |salts| ==> salts[i].validSince >= t
  }

  ghost predicate Begun(salts: seq<ServerSalt>, t: real)
  {
    forall i :: 0 <= i < |salts| ==> salts[i].validSince < t
  }

  /** On a schedule sorted newest first, exactly the salts that have not begun yet remain scheduled, and the adopted
      salt is the newest of those that have. */
  lemma {:induction false} AdoptPicksLatest(s: Schedule, t: real)
    requires NewestFirst(s.future)
    ensures var r := Adopt(s, t);
            var k := |r.future|;
            && NotBegun(r.future, t) && Begun(s.future[k..], t)
            && r.salt == if k < |s.future| then s.future[k] else s.salt
    decreases |s.future|
  {
    var n := |s.future|;
    AdoptUnfolds(s, t);
    hide Adopt, Begun, NotBegun;
    if n > 0 && s.future[n - 1].validSince < t {
      var last, init := s.future[n - 1], s.future[..n - 1];
      AdoptPicksLatest(Schedule(last, init), t);
      BegunLater(s.future, |Adopt(s, t).future|, t);
    } else {
      LastDecides(s.future, t);
    }
  }

  lemma AdoptUnfolds(s: Schedule, t: real)
    ensures var n := |s.future|;
            Adopt(s, t) == if n > 0 && s.future[n - 1].validSince < t
                           then Adopt(Schedule(s.future[n - 1], s.future[..n - 1]), t) else s
  {
  }

  lemma BegunLater(salts: seq<ServerSalt>, k: nat, t: real)
    requires k < |salts| && Begun(salts[..|salts| - 1][k..], t) && salts[|salts| - 1].validSince < t
    ensures Begun(salts[k..], t)
  {
    assert salts[k..] == salts[..|salts| - 1][k..] + [salts[|salts| - 1]];
  }

  lemma LastDecides(salts: seq<ServerSalt>, t: real)
    requires NewestFirst(salts) && (salts != [] ==> salts[|salts| - 1].validSince >= t)
    ensures NotBegun(salts, t) && Begun(salts[|salts|..], t)
  {
  }

  lemma InsertedNewestFirst(sorted: seq<ServerSalt>, k: nat, x: ServerSalt)
    requires NewestFirst(sorted) && k <= |sorted|
    requires forall j :: 0 <= j < k ==> sorted[j].validSince >= x.validSince
    requires k < |sorted| ==> x.validSince >= sorted[k].validSince
    ensures var r := sorted[..k] + [x] + sorted[k..];
            NewestFirst(r) && multiset(r) == multiset(sorted) + multiset{x}
  {
    var r := sorted[..k] + [x] + sorted[k..];
    InsertedContents(sorted, k, x);
    forall i, j | 0 <= i < j < |r| ensures r[i].validSince >= r[j].validSince {
      if j > k { assert r[j] == sorted[j - 1]; }
      if i > k { assert r[i] == sorted[i - 1]; }
    }
  }

  lemma InsertedContents(sorted: seq<ServerSalt>, k: nat, x: ServerSalt)
    requires k <= |sorted|
    ensures multiset(sorted[..k] + [x] + sorted[k..]) == multiset(sorted) + multiset{x}
  {
    assert sorted == sorted[..k] + sorted[k..];
  }

  method InsertNewestFirst(sorted: seq<ServerSalt>, x: ServerSalt) returns (r: seq<ServerSalt>)
    requires NewestFirst(sorted)
    ensures NewestFirst(r) && multiset(r) == multiset(sorted) + multiset{x}
  {
    var k := 0;
    while k < |sorted| && sorted[k].validSince > x.validSince
      invariant 0 <= k <= |sorted|
      invariant forall j :: 0 <= j < k ==> sorted[j].validSince > x.validSince
    {
      k := k + 1;
    }
    r := sorted[..k] + [x] + sorted[k..];
    InsertedNewestFirst(sorted, k, x);
  }

  method SortNewestFirst(salts: seq<ServerSalt>) returns (sorted: seq<ServerSalt>)
    ensures NewestFirst(sorted) && multiset(sorted) == multiset(salts)
  {
    sorted := [];
    for i := 0 to |salts|
      invariant NewestFirst(sorted) && multiset(sorted) == multiset(salts[..i])
    {
      sorted := InsertNewestFirst(sorted, salts[i]);
      assert salts[..i + 1] == salts[..i] + [salts[i]];
    }
    assert salts[..|salts|] == salts;
  }

  /** The shared object; every method is the corresponding function on its value. */
  class AuthDataStore {
    const usePfs: bool
    var hasMainKey: bool
    var tmpKeyExpiresAt: Option<real>
    var timeDifference: real
    var salt: ServerSalt
    var futureSalts: seq<ServerSalt>
    var lastMessageId: nat
    var seqNo: nat
    const rng: nat -> nat
    var drawn: nat

    function Value(): Auth
      reads this
    {
      Auth(usePfs, hasMainKey, tmpKeyExpiresAt, timeDifference, salt, futureSalts, lastMessageId, seqNo, rng, drawn)
    }

    constructor (usePfs: bool, rng: nat -> nat)
      ensures Fresh(Value()) && lastMessageId == 0 && seqNo == 0 && futureSalts == []
      ensures this.usePfs == usePfs && this.rng == rng
    {
      this.usePfs, this.rng, drawn := usePfs, rng, 0;
      hasMainKey, tmpKeyExpiresAt, timeDifference := false, None, 0.0;
      salt, futureSalts := ServerSalt(0, -10000000000.0, -10000000000.0), [];
      lastMessageId, seqNo := 0, 0;
    }

    method NextMessageId(now: real) returns (id: nat)
      modifies this`lastMessageId, this`drawn
      ensures Value() == WithNextId(old(Value()), now) && id == lastMessageId
      ensures old(lastMessageId) < id
    {
      var serverTime := timeDifference + now;
      var rx := rng(drawn);
      drawn := drawn + 1;
      id := ClockId(serverTime, rx);
      if lastMessageId >= id {
        id := lastMessageId + BumpStep(rx);
      }
      lastMessageId := id;
    }

    method TakeSeqNo(contentRelated: bool) returns (res: nat)
      modifies this`seqNo
      ensures (res, seqNo) == NextSeqNo(old(seqNo), contentRelated)
    {
      res := seqNo;
      if contentRelated {
        res := res / 2 * 2 + 1;
        seqNo := seqNo + 2;
      }
    }

    method CheckSalt(now: real) returns (has: bool)
      modifies this`salt, this`futureSalts
      ensures Value() == UpdateSalt(old(Value()), now) && has == HasSalt(old(Value()), now)
    {
      AdoptSalts(now);
      has := salt.validUntil > timeDifference + now + 60.0;
    }

    method WantsFutureSalts(now: real) returns (wants: bool)
      modifies this`salt, this`futureSalts
      ensures Value() == UpdateSalt(old(Value()), now) && wants == NeedFutureSalts(old(Value()), now)
    {
      AdoptSalts(now);
      wants := futureSalts == [] || !(salt.validUntil > timeDifference + now + 60.0);
    }

    method AdoptSalts(now: real)
      modifies this`salt, this`futureSalts
      ensures Value() == UpdateSalt(old(Value()), now)
    {
      hide Adopt;
      var serverTime := timeDifference + now;
      AdoptUnfolds(Schedule(salt, futureSalts), serverTime);
      while futureSalts != [] && futureSalts[|futureSalts| - 1].validSince < serverTime
        invariant Adopt(Schedule(salt, futureSalts), serverTime) == Adopt(old(Schedule(salt, futureSalts)), serverTime)
        invariant futureSalts == [] || futureSalts[|futureSalts| - 1].validSince >= serverTime ==>
                    Adopt(Schedule(salt, futureSalts), serverTime) == Schedule(salt, futureSalts)
        decreases |futureSalts|
      {
        AdoptUnfolds(Schedule(salt, futureSalts), serverTime);
        AdoptUnfolds(Schedule(futureSalts[|futureSalts| - 1], futureSalts[..|futureSalts| - 1]), serverTime);
        salt := futureSalts[|futureSalts| - 1];
        futureSalts := futureSalts[..|futureSalts| - 1];
      }
    }

    /** A salt from the server is good for ten minutes and ends the schedule. */
    method SetServerSalt(value: int, now: real)
      modifies this`salt, this`futureSalts
      ensures var t := ServerTime(old(Value()), now);
              Value() == old(Value()).(salt := ServerSalt(value, t, t + 600.0), futureSalts := [])
      ensures HasSalt(Value(), now)
    {
      var serverTime := timeDifference + now;
      salt := ServerSalt(value, serverTime, serverTime + 60.0 * 10.0);
      futureSalts := [];
    }

    /** Replaces the schedule by `salts`, newest first, unless nothing was received. */
    method SetFutureSalts(salts: seq<ServerSalt>, now: real)
      modifies this`salt, this`futureSalts
      ensures salts == [] ==> Value() == old(Value())
      ensures salts != [] ==>
                exists sorted :: NewestFirst(sorted) && multiset(sorted) == multiset(salts) &&
                                 Value() == UpdateSalt(old(Value()).(futureSalts := sorted), now)
    {
      if salts == [] { return; }
      var sorted := SortNewestFirst(salts);
      futureSalts := sorted;
      ghost var prior := old(Value()).(futureSalts := sorted);
      assert Value() == prior;
      AdoptSalts(now);
    }
  }
}
