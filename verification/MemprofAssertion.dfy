/** Whether the assertion inside a lookup can fail: the exact numbers of slots and threads. */
module MemprofAssertion {
  import opened MemprofTable
  import opened MemprofAbort

  /** Seven tenths of the table must be counted while a forced lookup has an empty slot in hand: half of it, one more by
      every thread that has passed the first check, and the common entry if another thread can make it. */
  predicate CanFail(n: nat, threads: nat, unknown: nat)
  {
    && threads > 0
    && (|| unknown == 0
        || 7 * n <= 10 * (n / 2 + threads + (if threads > 1 && CommonRoom(n, unknown) then 1 else 0)))
  }

  // ---------------------------------------------------------------------------------------------------------
  // No sooner than that
  // ---------------------------------------------------------------------------------------------------------

  /** The thread is going to count an entry it was let in for while half the table was not yet counted, or has made
      one. */
  predicate Pending(th: Thread)
  {
    th.phase.Claimed? || (th.phase.Claiming? && !th.force)
  }

  function PendingCount(threads: seq<Thread>): (c: nat)
    ensures c <= |threads|
  {
    if threads == [] then 0 else (if Pending(threads[0]) then 1 else 0) + PendingCount(threads[1..])
  }

  lemma {:induction false} PendingUpdate(threads: seq<Thread>, t: nat, th: Thread)
    requires t < |threads|
    ensures PendingCount(threads[t := th]) + (if Pending(threads[t]) then 1 else 0)
            == PendingCount(threads) + (if Pending(th) then 1 else 0)
    decreases |threads|
  {
    if t > 0 {
      PendingUpdate(threads[1..], t - 1, th);
      assert threads[t := th][1..] == threads[1..][t - 1 := th];
    } else {
      assert threads[t := th][1..] == threads[1..];
    }
  }

  ghost function CommonEntry(w: World): nat
  {
    if CommonRoom(|w.slots|, w.unknown) && w.unknown in w.slots then 1 else 0
  }

  ghost predicate Restrained(w: World, th: Thread)
  {
    && Disciplined(w, th)
    && (th.phase.Claiming? && th.force ==> 10 * (|w.slots| / 2 + 1) < 7 * |w.slots|)
    && (|w.threads| == 1 && th.pos < |w.slots| && (th.phase.Vacant? || th.phase.Crowded?) ==> w.slots[th.pos] == 0)
    && (th.phase.AssertionFailed? ==> CanFail(|w.slots|, |w.threads|, w.unknown))
  }

  ghost predicate Counted(w: World)
  {
    w.unknown != 0 ==> w.size + PendingCount(w.threads) <= |w.slots| / 2 + |w.threads| + CommonEntry(w)
  }

  ghost predicate Tight(w: World)
  {
    && MemprofTable.Inv(w) && Counted(w)
    && (forall t :: 0 <= t < |w.threads| ==> Restrained(w, w.threads[t]))
  }

  /** A thread that works alone and has an empty slot in hand looks for a hash that is not in the table. */
  lemma NotThere(w: World, t: nat)
    requires MemprofTable.Inv(w) && t < |w.threads| && w.threads[t].hash != 0
    requires (w.threads[t].phase.Crowded? || w.threads[t].phase.Claiming?) && w.slots[w.threads[t].pos] == 0
    ensures w.threads[t].hash !in w.slots
  {
    var th, n := w.threads[t], |w.slots|;
    assert ThreadOk(w.slots, th);
    var k := Moves(n, th);
    MovesSlot(w.slots, th);
    hide At;
    if n <= k { AllSeen(w.slots, th.hash, k); }
    forall i | 0 <= i < n ensures w.slots[i] != th.hash {
      if i != th.pos { NowhereElse(w.slots, th.hash, k, i); }
    }
  }

  /** What a thread finds when the assertion fails. */
  lemma FailureNeeds(w: World, t: nat)
    requires Tight(w) && t < |w.threads| && w.threads[t].phase.Crowded? && w.size * 10 >= |w.slots| * 7
    requires w.threads[t].pos < |w.slots|
    ensures CanFail(|w.slots|, |w.threads|, w.unknown)
  {
    hide MemprofTable.Inv;
    var th := w.threads[t];
    assert Restrained(w, th);
    if w.unknown != 0 && |w.threads| == 1 { NotThere(w, t); }
  }

  lemma NextCounted(w: World, t: nat)
    requires Tight(w) && t < |w.threads| && Running(w.threads[t]) && w.threads[t].pos < |w.slots|
    ensures Counted(Apply(w, Next(t)))
  {
    hide MemprofTable.Inv, PendingCount;
    var w', th := Apply(w, Next(t)), w.threads[t];
    assert Restrained(w, th);
    PendingUpdate(w.threads, t, w'.threads[t]);
    if th.phase.Claiming? && w.slots[th.pos] == 0 {
      if th.hash != 0 { NotThere(w, t); }
      Entered(w.slots, th.pos, th.hash, w.unknown);
    }
  }

  lemma Entered(slots: seq<nat>, p: nat, hash: nat, x: nat)
    requires p < |slots| && slots[p] == 0
    ensures x != 0 ==> (x in slots[p := hash] <==> x in slots || x == hash)
  {
    var slots' := slots[p := hash];
    assert slots'[p] == hash;
    if x != 0 && x in slots {
      var i :| 0 <= i < |slots| && slots[i] == x;
      assert slots'[i] == x;
    }
    if x in slots' {
      var i :| 0 <= i < |slots| && slots'[i] == x;
      assert i == p || slots[i] == x;
    }
  }

  lemma NextRestrained(w: World, t: nat, u: nat)
    requires Tight(w) && t < |w.threads| && u < |w.threads| && Running(w.threads[t]) && w.threads[t].pos < |w.slots|
    ensures Restrained(Apply(w, Next(t)), Apply(w, Next(t)).threads[u])
  {
    assert Restrained(w, w.threads[t]) && Restrained(w, w.threads[u]);
    if w.threads[t].phase.Crowded? && w.size * 10 >= |w.slots| * 7 { FailureNeeds(w, t); }
    hide MemprofTable.Inv, Counted, CanFail;
  }

  lemma StepStaysTight(w: World, step: Step)
    requires Tight(w)
    ensures Tight(Apply(w, step))
  {
    hide Counted, Restrained;
    MemprofTable.StepKeeps(w, step);
    hide MemprofTable.Inv;
    var w' := Apply(w, step);
    if step.t < |w.threads| && w' != w {
      if step.Next? {
        NextCounted(w, step.t);
        forall u | 0 <= u < |w'.threads| ensures Restrained(w', w'.threads[u]) { NextRestrained(w, step.t, u); }
      } else {
        QuietStaysTight(w, step.t, w'.threads[step.t]);
      }
    }
  }

  /** A thread that starts, or is given back to rest, changes nothing in the table. */
  lemma QuietStaysTight(w: World, t: nat, th: Thread)
    requires Counted(w) && forall u :: 0 <= u < |w.threads| ==> Restrained(w, w.threads[u])
    requires t < |w.threads| && Resting(w.threads[t]) && (th.phase.Idle? || (th.phase.Probing? && !th.force))
    ensures var w' := w.(threads := w.threads[t := th]);
            Counted(w') && forall u :: 0 <= u < |w'.threads| ==> Restrained(w', w'.threads[u])
  {
    hide PendingCount;
    PendingUpdate(w.threads, t, th);
    var w' := w.(threads := w.threads[t := th]);
    forall u | 0 <= u < |w'.threads| ensures Restrained(w', w'.threads[u]) {
      assert Restrained(w, w.threads[u]);
    }
  }

  lemma {:induction false} RunStaysTight(w: World, steps: seq<Step>)
    requires Tight(w)
    ensures var r := Run(w, steps);
            && Tight(r) && |r.slots| == |w.slots| && |r.threads| == |w.threads| && r.unknown == w.unknown
    decreases |steps|
  {
    hide Tight;
    if steps != [] {
      StepStaysTight(w, steps[0]);
      SameNumbers(w, steps[0]);
      RunStaysTight(Apply(w, steps[0]), steps[1..]);
    }
  }

  lemma SameNumbers(w: World, step: Step)
    ensures var r := Apply(w, step);
            |r.slots| == |w.slots| && |r.threads| == |w.threads| && r.unknown == w.unknown
  {
  }

  lemma {:induction false} NonePending(threads: seq<Thread>)
    requires forall t :: 0 <= t < |threads| ==> threads[t].phase.Idle?
    ensures PendingCount(threads) == 0
  {
    if threads != [] { NonePending(threads[1..]); }
  }

  lemma InitialTight(w: World)
    requires Initial(w)
    ensures Tight(w)
  {
    InitialInv(w);
    NonePending(w.threads);
    hide MemprofTable.Inv;
  }

  ghost predicate Fails(w: World, steps: seq<Step>, t: nat)
  {
    t < |Run(w, steps).threads| && Run(w, steps).threads[t].phase.AssertionFailed?
  }

  lemma FailureNeedsThreads(w: World, steps: seq<Step>, t: nat)
    requires Initial(w) && Fails(w, steps, t)
    ensures CanFail(|w.slots|, |w.threads|, w.unknown)
  {
    hide Run, CanFail, Initial;
    InitialTight(w);
    RunStaysTight(w, steps);
    var r := Run(w, steps);
    assert Restrained(r, r.threads[t]);
  }

  // ---------------------------------------------------------------------------------------------------------
  // Reaching it with ordinary hashes
  // ---------------------------------------------------------------------------------------------------------

  /** Seven tenths of the slots, rounded up. */
  function Limit(n: nat): (k: nat)
    ensures 7 * n <= 10 * k < 7 * n + 10 && k <= n && (n > 0 ==> n / 2 < k)
  {
    (7 * n + 9) / 10
  }

  lemma {:induction false} SettleAll(w: World, from: nat, m: nat) returns (v: World)
    requires from <= m <= |w.threads|
    requires forall t :: from <= t < m ==> w.threads[t].phase.Claimed? && w.threads[t].pos < |w.slots|
    ensures Reaches(w, v) && SameShape(w, v) && v.slots == w.slots && v.size == w.size + (m - from)
    ensures forall t :: 0 <= t < from ==> v.threads[t] == w.threads[t]
    decreases m - from
  {
    if from == m {
      v := w;
      Stays(w);
    } else {
      var a := Settle(w, from);
      v := SettleAll(a, from + 1, m);
      hide Reaches;
      Onward(w, a, v);
    }
  }

  /** A forced lookup that finds seven tenths counted. */
  lemma FailNow(w: World, t: nat) returns (v: World)
    requires t < |w.threads| && w.threads[t].phase.Vacant? && w.threads[t].force && w.threads[t].pos < |w.slots|
    requires 7 * |w.slots| <= 10 * w.size
    ensures Reaches(w, v) && |v.threads| == |w.threads| && v.threads[t].phase.AssertionFailed?
  {
    var a := Apply(w, Next(t));
    v := Apply(a, Next(t));
    hide Reaches;
    OneStep(w, Next(t));
    OneStep(a, Next(t));
    Onward(w, a, v);
  }

  lemma PartFilling(w: World, k: nat, m: nat, m': nat)
    requires Filling(w, k, m) && k <= m' <= m
    ensures Filling(w, k, m')
  {
    hide At, Base;
  }

  lemma CommonIsEmpty(w: World, k: nat)
    requires Filling(w, k, |w.slots|) && k < |w.slots|
    ensures w.slots[w.unknown % |w.slots|] == 0
  {
    LastPlace(w);
    hide At, Base;
  }

  /** The rest of the poised threads make their entries and count them. */
  lemma CountRest(w: World, k: nat, from: nat, m: nat) returns (v: World)
    requires w.slots != [] && Poised(w, k, from, m) && Filling(w, k + from, k + m)
    ensures Reaches(w, v) && SameShape(w, v) && v.size == w.size + (m - from)
    ensures forall t :: 0 <= t < from ==> v.threads[t] == w.threads[t]
  {
    hide Base, At;
    var a := ClaimAll(w, k, from, m);
    v := SettleAll(a, from, m);
    hide Reaches;
    Onward(w, a, v);
  }

  /** Enough threads count seven tenths by themselves while the first of them has an empty slot in hand. */
  lemma FailByThreads(w: World) returns (v: World)
    requires Initial(w) && |w.slots| >= 3 && Limit(|w.slots|) <= |w.slots| / 2 + |w.threads|
    ensures Reaches(w, v) && v.threads != [] && v.threads[0].phase.AssertionFailed?
  {
    hide Base, At, Reaches;
    var n, h := |w.slots|, |w.slots| / 2;
    var m := Limit(n) - h;
    var a := FillAndPoise(w, m);
    var b := EnterAndCount(a, h, 0, m);
    CommonIsEmpty(b, h + 1);
    var c := LookForCommon(b, 0);
    SameFilling(b, c, h + 1, n);
    PartFilling(c, h + 1, n, h + m);
    SamePoised(b, c, h, 1, m);
    var d := CountRest(c, h, 1, m);
    v := FailNow(d, 0);
    Onward(w, a, b);
    Onward(w, b, c);
    Onward(w, c, d);
    Onward(w, d, v);
  }

  /** With one thread fewer: one thread is about to make the common entry, another has the same slot in hand. */
  lemma TwoForced(w: World) returns (v: World)
    requires Initial(w) && CommonRoom(|w.slots|, w.unknown) && |w.threads| > 1
    requires |w.slots| / 2 + |w.threads| + 1 <= |w.slots|
    ensures var n, h, r := |w.slots|, |w.slots| / 2, w.unknown % |w.slots|;
            && Reaches(w, v) && SameShape(w, v) && v.size == h + 2
            && Filling(v, h + 2, n) && Poised(v, h, 2, |w.threads|)
            && v.threads[0] == Thread(Claiming, w.unknown, r, false, true)
            && v.threads[1] == Thread(Vacant, w.unknown, r, false, true)
  {
    hide Base, At, Reaches;
    var n, h, m := |w.slots|, |w.slots| / 2, |w.threads|;
    var a := FillAndPoise(w, m);
    var b := EnterAndCount(a, h, 0, m);
    Onward(w, a, b);
    CommonIsEmpty(b, h + 1);
    var c := LookForCommon(b, 0);
    Onward(w, b, c);
    var d := PoiseCommon(c, 0);
    Onward(w, c, d);
    SameFilling(b, d, h + 1, n);
    SamePoised(b, d, h, 1, m);
    var e := EnterAndCount(d, h, 1, m);
    Onward(w, d, e);
    CommonIsEmpty(e, h + 2);
    v := LookForCommon(e, 1);
    Onward(w, e, v);
    SameFilling(e, v, h + 2, n);
    SamePoised(e, v, h, 2, m);
  }

  /** The common entry is made, the others count theirs, and the one that still has the slot in hand fails. */
  lemma FailWithCommon(w: World) returns (v: World)
    requires Initial(w) && CommonRoom(|w.slots|, w.unknown) && |w.threads| > 1
    requires Limit(|w.slots|) == |w.slots| / 2 + |w.threads| + 1
    ensures Reaches(w, v) && |v.threads| > 1 && v.threads[1].phase.AssertionFailed?
  {
    hide Base, At, Reaches;
    var n, h, m := |w.slots|, |w.slots| / 2, |w.threads|;
    var a := TwoForced(w);
    CommonIsEmpty(a, h + 2);
    var b := Claim(a, 0);
    CommonFilled(a, b, h + 2);
    SamePoised(a, b, h, 2, m);
    PartFilling(b, h + 2, n - 1, h + m);
    var c := Settle(b, 0);
    SameFilling(b, c, h + 2, h + m);
    SamePoised(b, c, h, 2, m);
    var d := CountRest(c, h, 2, m);
    v := FailNow(d, 1);
    Onward(w, a, b);
    Onward(w, b, c);
    Onward(w, c, d);
    Onward(w, d, v);
  }

  // ---------------------------------------------------------------------------------------------------------
  // Reaching it with hash zero
  // ---------------------------------------------------------------------------------------------------------

  ghost predicate ReachesAny(w: World, v: World)
  {
    exists steps :: Run(w, steps) == v
  }

  lemma AnyStep(w: World, step: Step)
    ensures ReachesAny(w, Apply(w, step))
  {
    hide Apply;
    assert [step][1..] == [];
    assert Run(w, [step]) == Run(Apply(w, step), []);
  }

  lemma AnyOnward(w: World, v: World, u: World)
    requires ReachesAny(w, v) && ReachesAny(v, u)
    ensures ReachesAny(w, u)
  {
    hide Run;
    var a :| Run(w, a) == v;
    var b :| Run(v, b) == u;
    RunAppend(w, a, b);
  }

  /** The table is empty and the first thread at rest. */
  ghost predicate Blank(w: World)
  {
    && w.slots != [] && w.threads != [] && Resting(w.threads[0])
    && forall i :: 0 <= i < |w.slots| ==> w.slots[i] == 0
  }

  /** A thread about to write zero into an empty slot does so and counts it. */
  lemma CountZero(w: World) returns (v: World)
    requires w.slots != [] && w.threads != [] && forall i :: 0 <= i < |w.slots| ==> w.slots[i] == 0
    requires var th := w.threads[0]; th.phase.Claiming? && th.hash == 0 && th.pos < |w.slots|
    ensures ReachesAny(w, v) && Blank(v) && SameShape(w, v) && v.size == w.size + 1
  {
    var a := Apply(w, Next(0));
    assert a.slots == w.slots;
    v := Apply(a, Next(0));
    hide ReachesAny;
    AnyStep(w, Next(0));
    AnyStep(a, Next(0));
    AnyOnward(w, a, v);
  }

  /** One lookup of hash zero: counted, but the slot stays empty. */
  lemma ZeroLookup(w: World) returns (v: World)
    requires Blank(w) && w.size <= |w.slots| / 2
    ensures ReachesAny(w, v) && Blank(v) && SameShape(w, v) && v.size == w.size + 1
  {
    var n := |w.slots|;
    var a := Apply(w, Begin(0, 0));
    var b := Apply(a, Next(0));
    var c := Apply(b, Next(0));
    assert c == w.(threads := w.threads[0 := Thread(Claiming, 0, 0 % n, false, false)]);
    AnyStep(w, Begin(0, 0));
    AnyStep(a, Next(0));
    AnyStep(b, Next(0));
    hide ReachesAny;
    AnyOnward(w, a, b);
    AnyOnward(w, b, c);
    v := CountZero(c);
    AnyOnward(w, c, v);
  }

  lemma {:induction false} ZeroLookups(w: World, k: nat) returns (v: World)
    requires Blank(w) && w.size == 0 && k <= |w.slots| / 2 + 1
    ensures ReachesAny(w, v) && Blank(v) && SameShape(w, v) && v.size == k
    decreases k
  {
    if k == 0 {
      v := w;
      assert Run(w, []) == w;
    } else {
      var a := ZeroLookups(w, k - 1);
      v := ZeroLookup(a);
      hide ReachesAny;
      AnyOnward(w, a, v);
    }
  }

  /** A lookup in an empty table of which more than half is counted is forced and finds an empty slot. */
  lemma ForcedLookup(w: World) returns (v: World)
    requires Blank(w) && w.size > |w.slots| / 2
    ensures ReachesAny(w, v) && v == w.(threads := v.threads) && |v.threads| == |w.threads|
    ensures v.threads[0] == Thread(Crowded, w.unknown, w.unknown % |w.slots|, false, true)
  {
    var n := |w.slots|;
    var a := Apply(w, Begin(0, 1));
    var b := Apply(a, Next(0));
    var c := Apply(b, Next(0));
    assert c == w.(threads := w.threads[0 := Thread(Probing, w.unknown, w.unknown % n, false, true)]);
    var d := Apply(c, Next(0));
    v := Apply(d, Next(0));
    AnyStep(w, Begin(0, 1));
    AnyStep(a, Next(0));
    AnyStep(b, Next(0));
    AnyStep(c, Next(0));
    AnyStep(d, Next(0));
    hide ReachesAny;
    AnyOnward(w, a, b);
    AnyOnward(w, b, c);
    AnyOnward(w, c, d);
    AnyOnward(w, d, v);
  }

  /** If the common hash itself is zero, one thread can count as far as the limit. */
  lemma {:induction false} FailAlone(w: World) returns (v: World)
    requires Blank(w) && w.size > |w.slots| / 2
    requires w.unknown == 0 || 7 * |w.slots| <= 10 * w.size
    ensures ReachesAny(w, v) && v.threads != [] && v.threads[0].phase.AssertionFailed?
    decreases 7 * |w.slots| - 10 * w.size
  {
    var a := ForcedLookup(w);
    var b := Apply(a, Next(0));
    AnyStep(a, Next(0));
    hide ReachesAny;
    AnyOnward(w, a, b);
    if 7 * |w.slots| <= 10 * w.size {
      v := b;
    } else {
      var c := CountZero(b);
      AnyOnward(w, b, c);
      v := FailAlone(c);
      AnyOnward(w, c, v);
    }
  }

  // ---------------------------------------------------------------------------------------------------------
  // Exactly
  // ---------------------------------------------------------------------------------------------------------

  /** From the empty table the assertion can fail in some interleaving if and only if that many threads can count seven
      tenths of it. */
  lemma FailsExactly(w: World)
    requires Initial(w)
    ensures (exists steps, t :: Fails(w, steps, t)) <==> CanFail(|w.slots|, |w.threads|, w.unknown)
  {
    hide Fails, Reaches, ReachesAny;
    if steps, t :| Fails(w, steps, t) {
      FailureNeedsThreads(w, steps, t);
    }
    if CanFail(|w.slots|, |w.threads|, w.unknown) {
      if w.unknown != 0 && |w.slots| >= 3 {
        OrdinaryFailure(w);
      } else {
        var a := ZeroLookups(w, |w.slots| / 2 + 1);
        var v := FailAlone(a);
        AnyOnward(w, a, v);
        FailsBy(w, v, 0);
      }
    }
  }

  /** With three slots or more, no site with hash zero is needed for that. */
  lemma OrdinaryFailure(w: World)
    requires Initial(w) && CanFail(|w.slots|, |w.threads|, w.unknown) && w.unknown != 0 && |w.slots| >= 3
    ensures exists steps, t :: Ordinary(steps) && Fails(w, steps, t)
  {
    hide Fails, Reaches, Run;
    var n, h := |w.slots|, |w.slots| / 2;
    var v, t := w, 0;
    if Limit(n) <= h + |w.threads| {
      v := FailByThreads(w);
    } else {
      v := FailWithCommon(w);
      t := 1;
    }
    OrdinaryFails(w, v, t);
  }

  lemma OrdinaryFails(w: World, v: World, t: nat)
    requires Reaches(w, v) && t < |v.threads| && v.threads[t].phase.AssertionFailed?
    ensures exists steps :: Ordinary(steps) && Fails(w, steps, t)
  {
    hide Run;
    var steps :| Ordinary(steps) && Run(w, steps) == v;
    assert Fails(w, steps, t);
  }

  lemma FailsBy(w: World, v: World, t: nat)
    requires ReachesAny(w, v) && t < |v.threads| && v.threads[t].phase.AssertionFailed?
    ensures exists steps :: Fails(w, steps, t)
  {
    hide Run;
    var steps :| Run(w, steps) == v;
    assert Fails(w, steps, t);
  }

  /** The table of ten million slots: 1999999 threads. */
  lemma TenMillionSlots(w: World)
    requires Initial(w) && |w.slots| == 10000000 && w.unknown != 0
    ensures (exists steps, t :: Fails(w, steps, t)) <==> 1999999 <= |w.threads|
  {
    FailsExactly(w);
  }
}
