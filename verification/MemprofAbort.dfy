/** Whether a lookup can run around the whole table of call sites: the exact numbers of slots and threads. */
module MemprofAbort {
  import opened MemprofTable

  /** The common hash can get an entry of its own after half the table is counted. */
  predicate CommonRoom(n: nat, unknown: nat)
  {
    unknown != 0 && 10 * (n / 2 + 1) < 7 * n
  }

  /** Half the table counted, one more entry by every thread that has passed the check, and the common one. */
  predicate CanFill(n: nat, threads: nat, unknown: nat)
  {
    n <= n / 2 + threads + (if CommonRoom(n, unknown) then 1 else 0)
  }

  // ---------------------------------------------------------------------------------------------------------
  // Counting
  // ---------------------------------------------------------------------------------------------------------

  function Occupied(slots: seq<nat>): nat
  {
    if slots == [] then 0 else (if slots[0] != 0 then 1 else 0) + Occupied(slots[1..])
  }

  function Count(threads: seq<Thread>, phase: Phase): nat
  {
    if threads == [] then 0 else (if threads[0].phase == phase then 1 else 0) + Count(threads[1..], phase)
  }

  lemma {:induction false} OccupiedUpdate(slots: seq<nat>, i: nat, hash: nat)
    requires i < |slots| && slots[i] == 0
    ensures Occupied(slots[i := hash]) == Occupied(slots) + (if hash != 0 then 1 else 0)
    decreases |slots|
  {
    if i > 0 {
      OccupiedUpdate(slots[1..], i - 1, hash);
      assert slots[i := hash][1..] == slots[1..][i - 1 := hash];
    } else {
      assert slots[i := hash][1..] == slots[1..];
    }
  }

  lemma {:induction false} CountUpdate(threads: seq<Thread>, t: nat, th: Thread, phase: Phase)
    requires t < |threads|
    ensures Count(threads[t := th], phase) + (if threads[t].phase == phase then 1 else 0)
            == Count(threads, phase) + (if th.phase == phase then 1 else 0)
    decreases |threads|
  {
    if t > 0 {
      CountUpdate(threads[1..], t - 1, th, phase);
      assert threads[t := th][1..] == threads[1..][t - 1 := th];
    } else {
      assert threads[t := th][1..] == threads[1..];
    }
  }

  lemma {:induction false} CountBoth(threads: seq<Thread>, a: Phase, b: Phase)
    requires a != b
    ensures Count(threads, a) + Count(threads, b) <= |threads|
  {
    if threads != [] { CountBoth(threads[1..], a, b); }
  }

  lemma {:induction false} FullCount(slots: seq<nat>)
    requires Full(slots)
    ensures Occupied(slots) == |slots|
  {
    if slots != [] {
      assert slots[0] != 0;
      FullCount(slots[1..]);
    }
  }

  lemma {:induction false} NoneCount(slots: seq<nat>)
    requires forall i :: 0 <= i < |slots| ==> slots[i] == 0
    ensures Occupied(slots) == 0
  {
    if slots != [] { NoneCount(slots[1..]); }
  }

  /** Entries other than `x`. */
  function Entries(slots: seq<nat>, x: nat): nat
  {
    if slots == [] then 0 else (if slots[0] != 0 && slots[0] != x then 1 else 0) + Entries(slots[1..], x)
  }

  predicate Claimer(th: Thread, x: nat)
  {
    th.phase.Claiming? && th.hash != 0 && th.hash != x
  }

  /** Threads about to make an entry other than `x`. */
  function Claimers(threads: seq<Thread>, x: nat): nat
  {
    if threads == [] then 0 else (if Claimer(threads[0], x) then 1 else 0) + Claimers(threads[1..], x)
  }

  lemma {:induction false} EntriesUpdate(slots: seq<nat>, i: nat, hash: nat, x: nat)
    requires i < |slots| && slots[i] == 0
    ensures Entries(slots[i := hash], x) == Entries(slots, x) + (if hash != 0 && hash != x then 1 else 0)
    decreases |slots|
  {
    if i > 0 {
      EntriesUpdate(slots[1..], i - 1, hash, x);
      assert slots[i := hash][1..] == slots[1..][i - 1 := hash];
    } else {
      assert slots[i := hash][1..] == slots[1..];
    }
  }

  lemma {:induction false} ClaimersUpdate(threads: seq<Thread>, t: nat, th: Thread, x: nat)
    requires t < |threads|
    ensures Claimers(threads[t := th], x) + (if Claimer(threads[t], x) then 1 else 0)
            == Claimers(threads, x) + (if Claimer(th, x) then 1 else 0)
    decreases |threads|
  {
    if t > 0 {
      ClaimersUpdate(threads[1..], t - 1, th, x);
      assert threads[t := th][1..] == threads[1..][t - 1 := th];
    } else {
      assert threads[t := th][1..] == threads[1..];
    }
  }

  lemma {:induction false} ClaimersClaim(threads: seq<Thread>, x: nat)
    ensures Claimers(threads, x) <= Count(threads, Claiming)
  {
    if threads != [] { ClaimersClaim(threads[1..], x); }
  }

  lemma {:induction false} EntriesOccupy(slots: seq<nat>, x: nat)
    ensures Entries(slots, x) <= Occupied(slots)
  {
    if slots != [] { EntriesOccupy(slots[1..], x); }
  }

  lemma {:induction false} NoneEntered(slots: seq<nat>, x: nat)
    requires forall i :: 0 <= i < |slots| ==> slots[i] == 0
    ensures Entries(slots, x) == 0
  {
    if slots != [] { NoneEntered(slots[1..], x); }
  }

  /** As no hash is in two slots, all entries but one are other than `x`. */
  lemma {:induction false} OneOf(slots: seq<nat>, x: nat)
    requires Unique(slots)
    ensures Occupied(slots) <= Entries(slots, x) + (if x != 0 then 1 else 0)
    ensures (forall i :: 0 <= i < |slots| ==> slots[i] != x) ==> Occupied(slots) == Entries(slots, x)
  {
    if slots != [] {
      var rest := slots[1..];
      assert Unique(rest);
      OneOf(rest, x);
      if slots[0] == x && x != 0 {
        forall i | 0 <= i < |rest| ensures rest[i] != x { assert slots[i + 1] == rest[i]; }
      }
    }
  }

  // ---------------------------------------------------------------------------------------------------------
  // No more than that
  // ---------------------------------------------------------------------------------------------------------

  /** The entry that is not held against the threads. */
  function Spared(w: World): nat
  {
    if CommonRoom(|w.slots|, w.unknown) then w.unknown else 0
  }

  /** A forced lookup is for the common hash and takes place when half the table is counted. */
  predicate Disciplined(w: World, th: Thread)
  {
    && (Running(th) && th.force ==> th.hash == w.unknown && w.size > |w.slots| / 2)
    && (th.phase.Crowded? ==> th.force)
  }

  ghost predicate Sparse(w: World)
  {
    && (forall t :: 0 <= t < |w.threads| ==> Disciplined(w, w.threads[t]))
    && Occupied(w.slots) <= w.size + Count(w.threads, Claimed)
    && Entries(w.slots, Spared(w)) + Claimers(w.threads, Spared(w)) <= |w.slots| / 2 + |w.threads|
  }

  lemma StepDisciplined(w: World, step: Step, u: nat)
    requires w.slots != [] && u < |w.threads| && forall t :: 0 <= t < |w.threads| ==> Disciplined(w, w.threads[t])
    ensures u < |Apply(w, step).threads| && Disciplined(Apply(w, step), Apply(w, step).threads[u])
  {
    assert Disciplined(w, w.threads[u]);
    if step.t < |w.threads| { assert Disciplined(w, w.threads[step.t]); }
  }

  /** The sizes of one step: what happens to the entries, the claimers and the count. */
  lemma StepCounts(w: World, t: nat)
    requires w.slots != [] && Sparse(w) && t < |w.threads| && Running(w.threads[t]) && w.threads[t].pos < |w.slots|
    ensures var w', x := Apply(w, Next(t)), Spared(w);
            && Occupied(w'.slots) <= w'.size + Count(w'.threads, Claimed)
            && Entries(w'.slots, x) + Claimers(w'.threads, x) <= |w.slots| / 2 + |w.threads|
  {
    hide Occupied, Count, Entries, Claimers;
    var w', x := Apply(w, Next(t)), Spared(w);
    var th, th' := w.threads[t], w'.threads[t];
    assert Disciplined(w, th);
    CountUpdate(w.threads, t, th', Claimed);
    ClaimersUpdate(w.threads, t, th', x);
    if th.phase.Claiming? && w.slots[th.pos] == 0 {
      OccupiedUpdate(w.slots, th.pos, th.hash);
      EntriesUpdate(w.slots, th.pos, th.hash, x);
    } else if th.phase.Vacant? && w.size <= |w.slots| / 2 {
      EntriesOccupy(w.slots, x);
      ClaimersClaim(w'.threads, x);
      CountBoth(w'.threads, Claimed, Claiming);
    }
  }

  lemma StepStaysSparse(w: World, step: Step)
    requires w.slots != [] && Sparse(w)
    ensures Sparse(Apply(w, step))
  {
    hide Occupied, Count, Entries, Claimers, Disciplined;
    var w' := Apply(w, step);
    if step.t < |w.threads| {
      var th := w.threads[step.t];
      if step.Next? && Running(th) && th.pos < |w.slots| {
        StepCounts(w, step.t);
      } else if w' != w {
        CountUpdate(w.threads, step.t, w'.threads[step.t], Claimed);
        ClaimersUpdate(w.threads, step.t, w'.threads[step.t], Spared(w));
      }
    }
    forall u | 0 <= u < |w'.threads| ensures Disciplined(w', w'.threads[u]) { StepDisciplined(w, step, u); }
  }

  lemma {:induction false} RunStaysSparse(w: World, steps: seq<Step>)
    requires w.slots != [] && Sparse(w)
    ensures var r := Run(w, steps);
            && Sparse(r) && |r.slots| == |w.slots| && |r.threads| == |w.threads| && r.unknown == w.unknown
    decreases |steps|
  {
    hide Sparse;
    if steps != [] {
      StepStaysSparse(w, steps[0]);
      RunStaysSparse(Apply(w, steps[0]), steps[1..]);
    }
  }

  lemma {:induction false} NoneClaim(threads: seq<Thread>, x: nat)
    requires forall t :: 0 <= t < |threads| ==> threads[t].phase.Idle?
    ensures Claimers(threads, x) == 0 && Count(threads, Claimed) == 0
  {
    if threads != [] { NoneClaim(threads[1..], x); }
  }

  lemma InitialSparse(w: World)
    requires Initial(w)
    ensures Sparse(w)
  {
    NoneCount(w.slots);
    NoneEntered(w.slots, Spared(w));
    NoneClaim(w.threads, Spared(w));
  }

  ghost predicate Aborts(w: World, steps: seq<Step>, t: nat)
  {
    t < |Run(w, steps).threads| && Run(w, steps).threads[t].phase.Aborted?
  }

  /** A lookup that runs around the table needs that many slots to be filled. */
  lemma AbortNeedsFill(w: World, steps: seq<Step>, t: nat)
    requires Initial(w) && Aborts(w, steps, t)
    ensures CanFill(|w.slots|, |w.threads|, w.unknown)
  {
    hide Run;
    InitialInv(w);
    RunKeeps(w, steps);
    InitialSparse(w);
    RunStaysSparse(w, steps);
    AbortsOnlyIfFull(w, steps, t);
    var r := Run(w, steps);
    FullCount(r.slots);
    OneOf(r.slots, Spared(r));
  }

  // ---------------------------------------------------------------------------------------------------------
  // Reaching it
  // ---------------------------------------------------------------------------------------------------------

  /** No site has hash zero, the mark of an empty slot. */
  predicate Ordinary(steps: seq<Step>)
  {
    forall i :: 0 <= i < |steps| && steps[i].Begin? ==> steps[i].hash != 0
  }

  ghost predicate Reaches(w: World, v: World)
  {
    exists steps :: Ordinary(steps) && Run(w, steps) == v
  }

  lemma {:induction false} RunAppend(w: World, a: seq<Step>, b: seq<Step>)
    ensures Run(w, a + b) == Run(Run(w, a), b)
    decreases |a|
  {
    hide Apply;
    if a == [] {
      assert a + b == b;
    } else {
      RunAppend(Apply(w, a[0]), a[1..], b);
      assert (a + b)[1..] == a[1..] + b;
    }
  }

  lemma Stays(w: World)
    ensures Reaches(w, w)
  {
    assert Ordinary([]) && Run(w, []) == w;
  }

  lemma OneStep(w: World, step: Step)
    requires step.Begin? ==> step.hash != 0
    ensures Reaches(w, Apply(w, step))
  {
    hide Apply;
    assert [step][1..] == [];
    assert Ordinary([step]) && Run(w, [step]) == Run(Apply(w, step), []);
  }

  lemma Onward(w: World, v: World, u: World)
    requires Reaches(w, v) && Reaches(v, u)
    ensures Reaches(w, u)
  {
    hide Run;
    var a :| Ordinary(a) && Run(w, a) == v;
    var b :| Ordinary(b) && Run(v, b) == u;
    RunAppend(w, a, b);
    assert Ordinary(a + b);
  }

  predicate Resting(th: Thread)
  {
    th.phase.Idle? || th.phase.Done?
  }

  /** A multiple of the number of slots above which no hash is the common one, up to one round further. */
  function Base(n: nat, unknown: nat): (b: nat)
    requires n > 0
    ensures b >= n && (unknown < b || b + n < unknown)
  {
    if n <= unknown <= 2 * n then 3 * n else n
  }

  lemma HomeOf(n: nat, unknown: nat, p: nat)
    requires p < n
    ensures (Base(n, unknown) + p) % n == p
  {
    if Base(n, unknown) == n {
      Wrap(n, p);
    } else {
      assert 3 * n + p == n * 3 + p;
      assert (n * 3 + p) % n == p % n by { ThreeRounds(n, p); }
    }
  }

  lemma ThreeRounds(n: nat, p: nat)
    requires p < n
    ensures (n * 3 + p) % n == p
  {
    Wrap(n, p);
    assert (n + p) % n == p;
    assert (n + (n + p)) % n == (n + p) % n by { OneRound(n, n + p); }
    assert (n + (n + (n + p))) % n == (n + (n + p)) % n by { OneRound(n, n + (n + p)); }
  }

  lemma OneRound(n: nat, x: nat)
    requires n > 0
    ensures (n + x) % n == x % n
  {
    var q, r := x / n, x % n;
    assert n + x == n * (q + 1) + r;
    DivMod(n + x, n, q + 1, r);
  }

  lemma DivMod(a: nat, n: nat, q: nat, r: nat)
    requires r < n && a == n * q + r
    ensures a % n == r
  {
    var q', r' := a / n, a % n;
    assert n * q' + r' == n * q + r;
    assert n * (q' - q) == r - r' && n * (q - q') == r' - r;
    if q < q' {
      Multiple(n, q' - q);
    } else if q' < q {
      Multiple(n, q - q');
    }
  }

  lemma Multiple(n: nat, k: nat)
    requires k > 0
    ensures n * k >= n
  {
    assert n * k == n + n * (k - 1);
  }

  /** A thread at rest looks up the hash of an empty slot and passes the check. */
  lemma Enter(w: World, t: nat, p: nat) returns (v: World)
    requires p < |w.slots| && t < |w.threads| && Resting(w.threads[t]) && w.slots[p] == 0 && w.size <= |w.slots| / 2
    ensures var hash := Base(|w.slots|, w.unknown) + p;
            v == w.(threads := w.threads[t := Thread(Claiming, hash, p, false, false)])
    ensures Reaches(w, v)
  {
    var hash := Base(|w.slots|, w.unknown) + p;
    HomeOf(|w.slots|, w.unknown, p);
    var a := Apply(w, Begin(t, hash));
    assert a == w.(threads := w.threads[t := Thread(Probing, hash, p, false, false)]);
    var b := Apply(a, Next(t));
    assert b == w.(threads := w.threads[t := Thread(Vacant, hash, p, false, false)]);
    v := Apply(b, Next(t));
    hide Reaches, Apply, Base;
    OneStep(w, Begin(t, hash));
    OneStep(a, Next(t));
    OneStep(b, Next(t));
    Onward(w, a, b);
    Onward(w, b, v);
  }

  lemma Claim(w: World, t: nat) returns (v: World)
    requires t < |w.threads| && w.threads[t].phase.Claiming? && w.threads[t].pos < |w.slots|
    requires w.slots[w.threads[t].pos] == 0
    ensures var th := w.threads[t];
            v == w.(slots := w.slots[th.pos := th.hash], threads := w.threads[t := th.(phase := Claimed)])
    ensures Reaches(w, v)
  {
    v := Apply(w, Next(t));
    OneStep(w, Next(t));
  }

  lemma Settle(w: World, t: nat) returns (v: World)
    requires t < |w.threads| && w.threads[t].phase.Claimed? && w.threads[t].pos < |w.slots|
    ensures v == w.(size := w.size + 1, threads := w.threads[t := w.threads[t].(phase := Done)])
    ensures Reaches(w, v)
  {
    v := Apply(w, Next(t));
    OneStep(w, Next(t));
  }

  /** The slots in the order in which they are filled: the first slot of the common hash comes last. */
  function Place(w: World, i: nat): (p: nat)
    requires w.slots != []
    ensures p < |w.slots|
  {
    At(|w.slots|, w.unknown % |w.slots| + 1, i)
  }

  lemma LastPlace(w: World)
    requires w.slots != []
    ensures Place(w, |w.slots| - 1) == w.unknown % |w.slots|
  {
    var n, r := |w.slots|, w.unknown % |w.slots|;
    if r + 1 == n {
      assert n % n == 0 by { DivMod(n, n, 1, 0); }
      Small(n, n - 1);
    } else {
      Small(n, r + 1);
      Wrap(n, r);
      assert r + 1 + (n - 1) == r + n;
    }
  }

  /** The table while it is filled: places below `k` taken, those from there to `m` empty, and nowhere the hash that
      will be looked for in the end. */
  ghost predicate Filling(w: World, k: nat, m: nat)
  {
    && w.slots != [] && k <= m <= |w.slots|
    && (forall i :: 0 <= i < k ==> w.slots[Place(w, i)] != 0)
    && (forall i :: k <= i < m ==> w.slots[Place(w, i)] == 0)
    && (forall j :: 0 <= j < |w.slots| ==> w.slots[j] != Base(|w.slots|, w.unknown) + |w.slots|)
  }

  lemma Fill(w: World, v: World, k: nat, m: nat, hash: nat)
    requires Filling(w, k, m) && k < m && hash != 0 && hash != Base(|w.slots|, w.unknown) + |w.slots|
    requires v.slots == w.slots[Place(w, k) := hash] && v.unknown == w.unknown
    ensures Filling(v, k + 1, m)
  {
    hide At, Base;
    forall i | 0 <= i < m && i != k ensures Place(w, i) != Place(w, k) {
      if Place(w, i) == Place(w, k) { AtInjective(|w.slots|, w.unknown % |w.slots| + 1, i, k); }
    }
    forall i | 0 <= i < m ensures Place(v, i) == Place(w, i) {
    }
  }

  ghost predicate AllRest(w: World)
  {
    forall t :: 0 <= t < |w.threads| ==> Resting(w.threads[t])
  }

  ghost predicate SameShape(w: World, v: World)
  {
    |v.slots| == |w.slots| && |v.threads| == |w.threads| && v.unknown == w.unknown
  }

  /** One thread fills and counts up to half the table. */
  lemma {:induction false} FillHalf(w: World, k: nat) returns (v: World)
    requires Initial(w) && w.threads != [] && k <= |w.slots| / 2
    ensures Reaches(w, v) && SameShape(w, v) && AllRest(v) && v.size == k && Filling(v, k, |w.slots|)
    decreases k
  {
    if k == 0 {
      v := w;
      Stays(w);
    } else {
      var u := FillHalf(w, k - 1);
      var a := Enter(u, 0, Place(u, k - 1));
      var b := Claim(a, 0);
      Fill(u, b, k - 1, |w.slots|, Base(|u.slots|, u.unknown) + Place(u, k - 1));
      v := Settle(b, 0);
      hide Reaches, Base, At;
      Onward(w, u, a);
      Onward(w, a, b);
      Onward(w, b, v);
      SameFilling(b, v, k, |w.slots|);
    }
  }

  lemma SameFilling(w: World, v: World, k: nat, m: nat)
    requires Filling(w, k, m) && v.slots == w.slots && v.unknown == w.unknown
    ensures Filling(v, k, m)
  {
    hide At, Base;
    forall i | 0 <= i < m ensures Place(v, i) == Place(w, i) {
    }
  }

  /** Threads below `m`, and not below `from`, are about to claim the places from `k` on. */
  ghost predicate Poised(w: World, k: nat, from: nat, m: nat)
    requires w.slots != []
  {
    && from <= m <= |w.threads|
    && forall t :: from <= t < m ==>
         w.threads[t] == Thread(Claiming, Base(|w.slots|, w.unknown) + Place(w, k + t), Place(w, k + t), false, false)
  }

  lemma {:induction false} PoiseAll(w: World, k: nat, m: nat) returns (v: World)
    requires Filling(w, k, |w.slots|) && AllRest(w) && w.size == k <= |w.slots| / 2
    requires m <= |w.threads| && k + m <= |w.slots|
    ensures Reaches(w, v) && v == w.(threads := v.threads) && |v.threads| == |w.threads|
    ensures Poised(v, k, 0, m) && forall t :: m <= t < |v.threads| ==> Resting(v.threads[t])
    decreases m
  {
    if m == 0 {
      v := w;
      Stays(w);
    } else {
      var u := PoiseAll(w, k, m - 1);
      assert Place(u, k + m - 1) == Place(w, k + m - 1);
      v := Enter(u, m - 1, Place(u, k + m - 1));
      hide Reaches, Base, At;
      Onward(w, u, v);
    }
  }

  /** Half the table counted, and `m` threads past the check. */
  lemma FillAndPoise(w: World, m: nat) returns (v: World)
    requires Initial(w) && 0 < m <= |w.threads| && |w.slots| / 2 + m <= |w.slots|
    ensures Reaches(w, v) && SameShape(w, v) && v.size == |w.slots| / 2
    ensures Filling(v, |w.slots| / 2, |w.slots|) && Poised(v, |w.slots| / 2, 0, m)
  {
    hide Base, At, Reaches;
    var h := |w.slots| / 2;
    var a := FillHalf(w, h);
    v := PoiseAll(a, h, m);
    SameFilling(a, v, h, |w.slots|);
    Onward(w, a, v);
  }

  /** They all do. */
  lemma {:induction false} ClaimAll(w: World, k: nat, from: nat, m: nat) returns (v: World)
    requires w.slots != [] && Poised(w, k, from, m) && Filling(w, k + from, k + m)
    ensures Reaches(w, v) && SameShape(w, v) && v.size == w.size && Filling(v, k + m, k + m)
    ensures forall t :: 0 <= t < from ==> v.threads[t] == w.threads[t]
    ensures forall t :: from <= t < m ==> v.threads[t] == w.threads[t].(phase := Claimed)
    ensures forall j :: 0 <= j < |w.slots| && w.slots[j] != 0 ==> v.slots[j] == w.slots[j]
    decreases m - from
  {
    if from == m {
      v := w;
      Stays(w);
    } else {
      hide Base, At;
      var hash := w.threads[from].hash;
      HashOk(w, k + from);
      var a := Claim(w, from);
      Fill(w, a, k + from, k + m, hash);
      assert Poised(a, k, from + 1, m);
      v := ClaimAll(a, k, from + 1, m);
      hide Reaches;
      Onward(w, a, v);
    }
  }

  lemma HashOk(w: World, i: nat)
    requires w.slots != []
    ensures var hash := Base(|w.slots|, w.unknown) + Place(w, i);
            hash != 0 && hash != Base(|w.slots|, w.unknown) + |w.slots|
  {
  }

  /** A thread past the check makes its entry and counts it. */
  lemma EnterAndCount(w: World, k: nat, t: nat, m: nat) returns (v: World)
    requires w.slots != [] && Poised(w, k, t, m) && t < m && Filling(w, k + t, |w.slots|) && k + t < |w.slots|
    ensures Reaches(w, v) && SameShape(w, v) && v.size == w.size + 1 && Filling(v, k + t + 1, |w.slots|)
    ensures Poised(v, k, t + 1, m) && Resting(v.threads[t])
    ensures forall u :: 0 <= u < t ==> v.threads[u] == w.threads[u]
  {
    hide Base, At;
    HashOk(w, k + t);
    var a := Claim(w, t);
    Fill(w, a, k + t, |w.slots|, w.threads[t].hash);
    v := Settle(a, t);
    SameFilling(a, v, k + t + 1, |w.slots|);
    hide Reaches;
    Onward(w, a, v);
  }

  lemma SamePoised(w: World, v: World, k: nat, from: nat, m: nat)
    requires w.slots != [] && Poised(w, k, from, m) && SameShape(w, v)
    requires forall t :: from <= t < m ==> v.threads[t] == w.threads[t]
    ensures Poised(v, k, from, m)
  {
    hide At, Base;
    forall i | k + from <= i < k + m ensures Place(v, i) == Place(w, i) {
    }
  }

  lemma FilledIsFull(w: World)
    requires Filling(w, |w.slots|, |w.slots|)
    ensures Full(w.slots)
  {
    hide At, Base;
    var n, h := |w.slots|, w.unknown % |w.slots| + 1;
    forall j | 0 <= j < n ensures w.slots[j] != 0 {
      var i := Distance(n, h, j);
      assert Place(w, i) == j;
    }
  }

  /** In a full table a lookup of a hash that is not there runs around. */
  lemma {:induction false} GoAround(w: World, t: nat) returns (v: World)
    requires Full(w.slots) && t < |w.threads| && w.threads[t].phase.Probing? && w.threads[t].pos < |w.slots|
    requires forall j :: 0 <= j < |w.slots| ==> w.slots[j] != w.threads[t].hash
    ensures Reaches(w, v) && t < |v.threads| && v.threads[t].phase.Aborted?
    decreases 2 * |w.slots| - w.threads[t].pos - (if w.threads[t].wasOverflow then |w.slots| else 0)
  {
    var a := Apply(w, Next(t));
    OneStep(w, Next(t));
    if a.threads[t].phase.Aborted? {
      v := a;
    } else {
      v := GoAround(a, t);
      Onward(w, a, v);
    }
  }

  lemma AbortWhenFull(w: World, t: nat) returns (v: World)
    requires Filling(w, |w.slots|, |w.slots|) && t < |w.threads| && Resting(w.threads[t])
    ensures Reaches(w, v) && t < |v.threads| && v.threads[t].phase.Aborted?
  {
    FilledIsFull(w);
    var a := Apply(w, Begin(t, Base(|w.slots|, w.unknown) + |w.slots|));
    OneStep(w, Begin(t, Base(|w.slots|, w.unknown) + |w.slots|));
    hide Base, Reaches;
    v := GoAround(a, t);
    Onward(w, a, v);
  }

  /** Enough threads fill the table by themselves. */
  lemma FillByThreads(w: World) returns (v: World)
    requires Initial(w) && |w.slots| <= |w.slots| / 2 + |w.threads|
    ensures Reaches(w, v) && v.threads != [] && v.threads[0].phase.Aborted?
  {
    hide Base, At, Reaches;
    var n, h := |w.slots|, |w.slots| / 2;
    var b := FillAndPoise(w, n - h);
    var c := ClaimAll(b, h, 0, n - h);
    var d := Settle(c, 0);
    SameFilling(c, d, n, n);
    v := AbortWhenFull(d, 0);
    Onward(w, b, c);
    Onward(w, c, d);
    Onward(w, d, v);
  }

  /** A thread that finds half the table counted looks for the common hash instead and finds its first slot empty. */
  lemma LookForCommon(w: World, t: nat) returns (v: World)
    requires w.slots != [] && t < |w.threads| && Resting(w.threads[t]) && w.slots[w.unknown % |w.slots|] == 0
    requires |w.slots| / 2 < w.size
    ensures Reaches(w, v)
    ensures var r := w.unknown % |w.slots|;
            v == w.(threads := w.threads[t := Thread(Vacant, w.unknown, r, false, true)])
  {
    var n, r := |w.slots|, w.unknown % |w.slots|;
    var hash := Base(n, w.unknown) + r;
    HomeOf(n, w.unknown, r);
    var a := Apply(w, Begin(t, hash));
    var b := Apply(a, Next(t));
    assert b == w.(threads := w.threads[t := Thread(Vacant, hash, r, false, false)]);
    var c := Apply(b, Next(t));
    assert c == w.(threads := w.threads[t := Thread(Probing, w.unknown, r, false, true)]);
    v := Apply(c, Next(t));
    hide Base, Reaches;
    OneStep(w, Begin(t, hash));
    OneStep(a, Next(t));
    OneStep(b, Next(t));
    OneStep(c, Next(t));
    Onward(w, a, b);
    Onward(w, b, c);
    Onward(w, c, v);
  }

  /** It passes the second check. */
  lemma PoiseCommon(w: World, t: nat) returns (v: World)
    requires w.slots != [] && t < |w.threads|
    requires w.threads[t] == Thread(Vacant, w.unknown, w.unknown % |w.slots|, false, true)
    requires |w.slots| / 2 < w.size && 10 * w.size < 7 * |w.slots|
    ensures Reaches(w, v) && v == w.(threads := w.threads[t := w.threads[t].(phase := Claiming)])
  {
    var a := Apply(w, Next(t));
    assert a == w.(threads := w.threads[t := w.threads[t].(phase := Crowded)]);
    v := Apply(a, Next(t));
    hide Reaches;
    OneStep(w, Next(t));
    OneStep(a, Next(t));
    Onward(w, a, v);
  }

  /** It puts the common hash into its first slot. */
  lemma ClaimCommon(w: World, t: nat) returns (v: World)
    requires w.slots != [] && t < |w.threads| && Resting(w.threads[t]) && w.slots[w.unknown % |w.slots|] == 0
    requires |w.slots| / 2 < w.size && 10 * w.size < 7 * |w.slots|
    ensures Reaches(w, v)
    ensures var r := w.unknown % |w.slots|;
            v == w.(slots := w.slots[r := w.unknown],
                    threads := w.threads[t := Thread(Claimed, w.unknown, r, false, true)])
  {
    hide Reaches;
    var a := LookForCommon(w, t);
    var b := PoiseCommon(a, t);
    v := Claim(b, t);
    Onward(w, a, b);
    Onward(w, b, v);
  }

  /** With one thread fewer: one of those that passed the check claims, counts and puts the common hash in. */
  lemma FillButOne(w: World) returns (v: World)
    requires Initial(w) && CommonRoom(|w.slots|, w.unknown) && |w.slots| == |w.slots| / 2 + |w.threads| + 1
    requires w.threads != []
    ensures var n, h, m := |w.slots|, |w.slots| / 2, |w.threads|;
            && Reaches(w, v) && SameShape(w, v)
            && Poised(v, h, 1, m) && Filling(v, h + 1, n - 1) && v.slots[Place(v, n - 1)] != 0
            && v.threads[0].phase.Claimed? && v.threads[0].pos < n
  {
    hide Base, At, Reaches;
    var n, h := |w.slots|, |w.slots| / 2;
    var m := |w.threads|;
    var b := FillAndPoise(w, m);
    var d := EnterAndCount(b, h, 0, m);
    Onward(w, b, d);
    LastPlace(d);
    v := ClaimCommon(d, 0);
    Onward(w, d, v);
    SamePoised(d, v, h, 1, m);
    CommonFilled(d, v, h + 1);
  }

  /** The others then fill the rest. */
  lemma FillWithCommon(w: World) returns (v: World)
    requires Initial(w) && CommonRoom(|w.slots|, w.unknown) && |w.slots| == |w.slots| / 2 + |w.threads| + 1
    requires w.threads != []
    ensures Reaches(w, v) && v.threads != [] && v.threads[0].phase.Aborted?
  {
    hide Base, At, Reaches;
    var n, h, m := |w.slots|, |w.slots| / 2, |w.threads|;
    var a := FillButOne(w);
    var b := ClaimAll(a, h, 1, m);
    LastFilled(a, b);
    var c := Settle(b, 0);
    SameFilling(b, c, n, n);
    v := AbortWhenFull(c, 0);
    Onward(w, a, b);
    Onward(w, b, c);
    Onward(w, c, v);
  }

  lemma CommonFilled(w: World, v: World, k: nat)
    requires Filling(w, k, |w.slots|) && k < |w.slots| && w.unknown != 0
    requires v.slots == w.slots[w.unknown % |w.slots| := w.unknown] && v.unknown == w.unknown
    ensures Filling(v, k, |w.slots| - 1) && v.slots[Place(v, |w.slots| - 1)] != 0
  {
    LastPlace(w);
    var n := |w.slots|;
    assert w.unknown != Base(n, w.unknown) + n;
    hide At, Base;
    forall i | 0 <= i < n ensures Place(v, i) == Place(w, i) {
    }
    forall i | 0 <= i < n - 1 ensures Place(w, i) != Place(w, n - 1) {
      if Place(w, i) == Place(w, n - 1) { AtInjective(n, w.unknown % n + 1, i, n - 1); }
    }
  }

  lemma LastFilled(w: World, v: World)
    requires w.slots != [] && SameShape(w, v) && Filling(v, |w.slots| - 1, |w.slots| - 1)
    requires w.slots[Place(w, |w.slots| - 1)] != 0
    requires forall j :: 0 <= j < |w.slots| && w.slots[j] != 0 ==> v.slots[j] == w.slots[j]
    ensures Filling(v, |w.slots|, |w.slots|)
  {
    hide At, Base;
    assert Place(v, |w.slots| - 1) == Place(w, |w.slots| - 1);
  }

  // ---------------------------------------------------------------------------------------------------------
  // Exactly
  // ---------------------------------------------------------------------------------------------------------

  /** From the empty table a lookup can run around it, and reach the abort, in some interleaving if and only if the
      slots are no more than half of them, one for every thread, and one for the common hash if it can come in. */
  lemma AbortExactly(w: World)
    requires Initial(w)
    ensures (exists steps, t :: Aborts(w, steps, t)) <==> CanFill(|w.slots|, |w.threads|, w.unknown)
  {
    hide Aborts, Reaches;
    if steps, t :| Aborts(w, steps, t) {
      AbortNeedsFill(w, steps, t);
    }
    if CanFill(|w.slots|, |w.threads|, w.unknown) {
      var v;
      if |w.slots| <= |w.slots| / 2 + |w.threads| {
        v := FillByThreads(w);
      } else {
        v := FillWithCommon(w);
      }
      AbortsBy(w, v);
    }
  }

  lemma AbortsBy(w: World, v: World)
    requires Reaches(w, v) && v.threads != [] && v.threads[0].phase.Aborted?
    ensures exists steps :: Aborts(w, steps, 0)
  {
    hide Run;
    var steps :| Ordinary(steps) && Run(w, steps) == v;
    assert Aborts(w, steps, 0);
  }

  /** The table of ten million slots: fewer than 4999999 threads cannot reach the abort, that many can. */
  lemma TenMillion(w: World)
    requires Initial(w) && |w.slots| == 10000000 && w.unknown != 0
    ensures (exists steps, t :: Aborts(w, steps, t)) <==> 4999999 <= |w.threads|
  {
    AbortExactly(w);
  }
}
