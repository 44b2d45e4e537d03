/** The lock-free hash table of call sites: open addressing, claimed by compare-and-swap, never emptied. Threads look up
    sites at the same time; a run is any interleaving of their atomic steps. */
module MemprofTable {

  /** Where a thread is in a lookup: about to load the hash of its slot; having found it empty, about to check the load
      of the table; having found the table more than half full in a forced lookup, about to check again; about to
      compare and swap; about to count the new entry; finished; or stopped. */
  datatype Phase = Idle | Probing | Vacant | Crowded | Claiming | Claimed | Done | Aborted | AssertionFailed

  datatype Thread = Thread(phase: Phase, hash: nat, pos: nat, wasOverflow: bool, force: bool)

  /** Zero marks an empty slot. `unknown` is the hash under which sites are put once the table is crowded. */
  datatype World = World(slots: seq<nat>, size: nat, unknown: nat, threads: seq<Thread>)

  datatype Step = Begin(t: nat, hash: nat) | Next(t: nat)

  function StartLookup(n: nat, hash: nat, force: bool): Thread
    requires n > 0
  {
    Thread(Probing, hash, hash % n, false, force)
  }

  function Advance(n: nat, th: Thread): Thread
  {
    if th.pos + 1 < n then th.(pos := th.pos + 1)
    else if th.wasOverflow then th.(phase := Aborted)
    else th.(pos := 0, wasOverflow := true)
  }

  /** One atomic step of a lookup. */
  function Advanced(w: World, th: Thread): (seq<nat>, nat, Thread)
    requires w.slots != [] && th.pos < |w.slots|
  {
    var n := |w.slots|;
    match th.phase
    case Probing =>
      var found := w.slots[th.pos];
      (w.slots, w.size,
       if found == 0 then th.(phase := Vacant)
       else if found == th.hash then th.(phase := Done)
       else Advance(n, th))
    case Vacant =>
      (w.slots, w.size,
       if w.size <= n / 2 then th.(phase := Claiming)
       else if th.force then th.(phase := Crowded)
       else StartLookup(n, w.unknown, true))
    case Crowded =>
      (w.slots, w.size, th.(phase := if w.size * 10 < n * 7 then Claiming else AssertionFailed))
    case Claiming =>
      if w.slots[th.pos] == 0 then (w.slots[th.pos := th.hash], w.size, th.(phase := Claimed))
      else (w.slots, w.size, th.(phase := Probing))
    case Claimed => (w.slots, w.size + 1, th.(phase := Done))
    case _ => (w.slots, w.size, th)
  }

  predicate Running(th: Thread)
  {
    !th.phase.Idle? && !th.phase.Done? && !th.phase.Aborted? && !th.phase.AssertionFailed?
  }

  function Apply(w: World, step: Step): World
  {
    if w.slots == [] || step.t >= |w.threads| then w
    else
      var th := w.threads[step.t];
      match step
      case Begin(t, hash) =>
        if th.phase.Idle? || th.phase.Done? then w.(threads := w.threads[t := StartLookup(|w.slots|, hash, false)])
        else w
      case Next(t) =>
        if !Running(th) || th.pos >= |w.slots| then w
        else
          var (slots, size, th') := Advanced(w, th);
          World(slots, size, w.unknown, w.threads[t := th'])
  }

  function Run(w: World, steps: seq<Step>): World
    decreases |steps|
  {
    if steps == [] then w else Run(Apply(w, steps[0]), steps[1..])
  }

  // ---------------------------------------------------------------------------------------------------------
  // Probe paths
  // ---------------------------------------------------------------------------------------------------------

  /** The slot a lookup of `hash` comes to after `k` moves in a table of `n` slots. */
  function At(n: nat, hash: nat, k: nat): (i: nat)
    requires n > 0
    ensures i < n
  {
    (hash % n + k) % n
  }

  function Distance(n: nat, hash: nat, i: nat): (k: nat)
    requires i < n
    ensures k < n && At(n, hash, k) == i
  {
    var home := hash % n;
    if home <= i then
      Small(n, i);
      i - home
    else
      assert home + (i + n - home) == i + n;
      Wrap(n, i);
      i + n - home
  }

  lemma Wrap(n: nat, i: nat)
    requires i < n
    ensures (i + n) % n == i
  {
  }

  lemma Small(n: nat, i: nat)
    requires i < n
    ensures i % n == i
  {
  }

  lemma AtUnwound(n: nat, hash: nat, k: nat)
    requires n > 0 && k < 2 * n - hash % n
    ensures At(n, hash, k) == if hash % n + k < n then hash % n + k else hash % n + k - n
  {
    var i := hash % n + k;
    if i < n { Small(n, i); } else { Wrap(n, i - n); }
  }

  lemma AtInjective(n: nat, hash: nat, a: nat, b: nat)
    requires n > 0 && a < n && b < n && At(n, hash, a) == At(n, hash, b)
    ensures a == b
  {
    AtUnwound(n, hash, a);
    AtUnwound(n, hash, b);
    hide At;
  }

  /** How many moves a lookup has made. */
  function Moves(n: nat, th: Thread): int
    requires n > 0
  {
    (if th.wasOverflow then n else 0) + th.pos - th.hash % n
  }

  // ---------------------------------------------------------------------------------------------------------
  // What every step keeps
  // ---------------------------------------------------------------------------------------------------------

  ghost predicate SeenAt(slots: seq<nat>, hash: nat, j: nat)
    requires slots != []
  {
    slots[At(|slots|, hash, j)] != 0 && slots[At(|slots|, hash, j)] != hash
  }

  /** The first `k` slots of the path hold other hashes. */
  ghost predicate Seen(slots: seq<nat>, hash: nat, k: int)
    requires slots != []
  {
    forall j: nat :: j < k ==> SeenAt(slots, hash, j)
  }

  ghost predicate Unique(slots: seq<nat>)
  {
    forall i, j :: 0 <= i < j < |slots| && slots[i] == slots[j] ==> slots[i] == 0
  }

  ghost predicate ReachableAt(slots: seq<nat>, hash: nat, k: nat)
    requires slots != [] && k < |slots|
  {
    hash != 0 && slots[At(|slots|, hash, k)] == hash ==> forall j: nat :: j < k ==> slots[At(|slots|, hash, j)] != 0
  }

  /** No empty slot lies between a hash's first slot and the slot it is in. */
  ghost predicate Reachable(slots: seq<nat>)
    requires slots != []
  {
    forall hash: nat, k: nat :: k < |slots| ==> ReachableAt(slots, hash, k)
  }

  ghost predicate Full(slots: seq<nat>)
  {
    forall i :: 0 <= i < |slots| ==> slots[i] != 0
  }

  predicate Searching(phase: Phase)
  {
    phase.Probing? || phase.Vacant? || phase.Crowded? || phase.Claiming?
  }

  ghost predicate ThreadOk(slots: seq<nat>, th: Thread)
    requires slots != []
  {
    && th.pos < |slots|
    && (Searching(th.phase) ==> 0 <= Moves(|slots|, th) && Seen(slots, th.hash, Moves(|slots|, th)))
    && ((th.phase.Claimed? || th.phase.Done?) && th.hash != 0 ==> slots[th.pos] == th.hash)
    && (th.phase.Aborted? ==> Full(slots))
  }

  ghost predicate Inv(w: World)
  {
    && w.slots != [] && Unique(w.slots) && Reachable(w.slots)
    && forall t :: 0 <= t < |w.threads| ==> ThreadOk(w.slots, w.threads[t])
  }

  /** Slots change only from empty to a hash. */
  ghost predicate Grown(slots: seq<nat>, slots': seq<nat>)
  {
    |slots| == |slots'| && forall i :: 0 <= i < |slots| && slots[i] != 0 ==> slots'[i] == slots[i]
  }

  lemma GrownThread(slots: seq<nat>, slots': seq<nat>, th: Thread)
    requires slots != [] && Grown(slots, slots') && ThreadOk(slots, th)
    ensures ThreadOk(slots', th)
  {
    hide At;
    if Searching(th.phase) {
      forall j: nat | j < Moves(|slots|, th) ensures SeenAt(slots', th.hash, j) {
        assert SeenAt(slots, th.hash, j);
      }
    }
  }

  /** A lookup that has made a full round has seen every slot. */
  lemma AllSeen(slots: seq<nat>, hash: nat, k: int)
    requires slots != [] && Seen(slots, hash, k) && |slots| <= k
    ensures Full(slots)
  {
    hide At;
    forall i | 0 <= i < |slots| ensures slots[i] != 0 {
      assert SeenAt(slots, hash, Distance(|slots|, hash, i));
    }
  }

  lemma MovesSlot(slots: seq<nat>, th: Thread)
    requires slots != [] && th.pos < |slots| && 0 <= Moves(|slots|, th)
    ensures Moves(|slots|, th) < 2 * |slots| - th.hash % |slots| && At(|slots|, th.hash, Moves(|slots|, th)) == th.pos
  {
    AtUnwound(|slots|, th.hash, Moves(|slots|, th));
  }

  /** A thread that claims an empty slot has found the only slot its hash can be in. */
  lemma ClaimKeeps(slots: seq<nat>, th: Thread)
    requires slots != [] && Unique(slots) && Reachable(slots) && ThreadOk(slots, th) && Searching(th.phase)
    requires slots[th.pos] == 0
    ensures Unique(slots[th.pos := th.hash]) && Reachable(slots[th.pos := th.hash])
  {
    var n, k := |slots|, Moves(|slots|, th);
    MovesSlot(slots, th);
    hide At;
    if n <= k { AllSeen(slots, th.hash, k); }
    assert k < n;
    var slots' := slots[th.pos := th.hash];
    if th.hash != 0 {
      forall i | 0 <= i < n && i != th.pos ensures slots[i] != th.hash { NowhereElse(slots, th.hash, k, i); }
    }
    ClaimReachable(slots, th.hash, k);
  }

  lemma NowhereElse(slots: seq<nat>, hash: nat, k: nat, i: nat)
    requires slots != [] && Reachable(slots) && hash != 0 && k < |slots| && Seen(slots, hash, k)
    requires slots[At(|slots|, hash, k)] == 0 && i < |slots| && i != At(|slots|, hash, k)
    ensures slots[i] != hash
  {
    hide At;
    var d := Distance(|slots|, hash, i);
    assert ReachableAt(slots, hash, d);
    if d < k { assert SeenAt(slots, hash, d); }
  }

  lemma ClaimReachable(slots: seq<nat>, hash: nat, k: nat)
    requires slots != [] && Reachable(slots) && k < |slots| && Seen(slots, hash, k) && slots[At(|slots|, hash, k)] == 0
    ensures Reachable(slots[At(|slots|, hash, k) := hash])
  {
    hide At;
    var n, p := |slots|, At(|slots|, hash, k);
    var slots' := slots[p := hash];
    forall h: nat, d: nat | d < n ensures ReachableAt(slots', h, d) {
      assert ReachableAt(slots, h, d);
      if h != 0 && slots'[At(n, h, d)] == h {
        if At(n, h, d) == p {
          AtInjective(n, h, d, k);
          forall j: nat | j < d ensures slots'[At(n, h, j)] != 0 { assert SeenAt(slots, hash, j); }
        } else {
          forall j: nat | j < d ensures slots'[At(n, h, j)] != 0 { assert slots[At(n, h, j)] != 0; }
        }
      }
    }
  }

  lemma AdvanceKeeps(slots: seq<nat>, th: Thread)
    requires slots != [] && ThreadOk(slots, th) && th.phase.Probing?
    requires slots[th.pos] != 0 && slots[th.pos] != th.hash
    ensures ThreadOk(slots, Advance(|slots|, th))
  {
    var n, k := |slots|, Moves(|slots|, th);
    MovesSlot(slots, th);
    hide At;
    assert SeenAt(slots, th.hash, k);
    assert Seen(slots, th.hash, k + 1);
    if th.pos + 1 == n && th.wasOverflow { AllSeen(slots, th.hash, k + 1); }
  }

  lemma StartOk(slots: seq<nat>, hash: nat, force: bool)
    requires slots != []
    ensures ThreadOk(slots, StartLookup(|slots|, hash, force))
  {
  }

  lemma AdvancedKeeps(w: World, th: Thread)
    requires Inv(w) && ThreadOk(w.slots, th) && Running(th)
    ensures var (slots, size, th') := Advanced(w, th);
            Grown(w.slots, slots) && Unique(slots) && Reachable(slots) && ThreadOk(slots, th')
  {
    hide Unique, Reachable, Seen;
    match th.phase {
      case Probing => if w.slots[th.pos] != 0 && w.slots[th.pos] != th.hash { AdvanceKeeps(w.slots, th); }
      case Vacant => StartOk(w.slots, w.unknown, true);
      case Claiming => if w.slots[th.pos] == 0 { ClaimKeeps(w.slots, th); }
      case _ =>
    }
  }

  lemma StepKeeps(w: World, step: Step)
    requires Inv(w)
    ensures Inv(Apply(w, step)) && Grown(w.slots, Apply(w, step).slots)
  {
    hide Unique, Reachable, ThreadOk;
    if step.t < |w.threads| {
      var th := w.threads[step.t];
      assert ThreadOk(w.slots, th);
      match step {
        case Begin(t, hash) =>
          StartOk(w.slots, hash, false);
        case Next(t) =>
          if Running(th) && th.pos < |w.slots| {
            AdvancedKeeps(w, th);
            var slots := Advanced(w, th).0;
            forall u | 0 <= u < |w.threads| ensures ThreadOk(slots, w.threads[u]) {
              GrownThread(w.slots, slots, w.threads[u]);
            }
          }
      }
    }
  }

  lemma {:induction false} RunKeeps(w: World, steps: seq<Step>)
    requires Inv(w)
    ensures Inv(Run(w, steps)) && Grown(w.slots, Run(w, steps).slots)
    decreases |steps|
  {
    hide Inv, Apply;
    if steps != [] {
      StepKeeps(w, steps[0]);
      RunKeeps(Apply(w, steps[0]), steps[1..]);
    }
  }

  // ---------------------------------------------------------------------------------------------------------
  // The table over whole runs
  // ---------------------------------------------------------------------------------------------------------

  ghost predicate Initial(w: World)
  {
    && w.slots != [] && w.size == 0
    && (forall i :: 0 <= i < |w.slots| ==> w.slots[i] == 0)
    && (forall t :: 0 <= t < |w.threads| ==> w.threads[t] == Thread(Idle, 0, 0, false, false))
  }

  lemma InitialInv(w: World)
    requires Initial(w)
    ensures Inv(w)
  {
    hide At;
  }

  /** In every interleaving each non-zero hash is in at most one slot, and two lookups of it that have finished, now or
      at an earlier point of the run, have returned the same slot. */
  lemma OneSlotPerHash(w: World, steps: seq<Step>, more: seq<Step>, t: nat, u: nat)
    requires Initial(w)
    requires var a, b := Run(w, steps), Run(Run(w, steps), more);
             && t < |a.threads| && u < |b.threads| && a.threads[t].phase.Done? && b.threads[u].phase.Done?
             && a.threads[t].hash == b.threads[u].hash != 0
    ensures Unique(Run(w, steps).slots)
    ensures var a, b := Run(w, steps), Run(Run(w, steps), more);
            a.threads[t].pos == b.threads[u].pos < |b.slots| && b.slots[b.threads[u].pos] == b.threads[u].hash
  {
    hide Run;
    InitialInv(w);
    RunKeeps(w, steps);
    RunKeeps(Run(w, steps), more);
    var a, b := Run(w, steps), Run(Run(w, steps), more);
    assert ThreadOk(a.slots, a.threads[t]) && ThreadOk(b.slots, b.threads[u]);
  }

  /** A lookup runs around the whole table only if no slot is empty. */
  lemma AbortsOnlyIfFull(w: World, steps: seq<Step>, t: nat)
    requires Initial(w)
    requires var r := Run(w, steps); t < |r.threads| && r.threads[t].phase.Aborted?
    ensures Full(Run(w, steps).slots)
  {
    hide Run;
    InitialInv(w);
    RunKeeps(w, steps);
    assert ThreadOk(Run(w, steps).slots, Run(w, steps).threads[t]);
  }

  // ---------------------------------------------------------------------------------------------------------
  // The lookup of one thread while the others rest
  // ---------------------------------------------------------------------------------------------------------

  /** The slot, and the hash it was looked up under. */
  datatype Lookup = Found(pos: nat, hash: nat) | Stopped

  class HashTable {
    const hashes: array<nat>
    const unknown: nat
    var htSize: nat

    constructor (size: nat, unknown: nat)
      requires size > 0
      ensures this.unknown == unknown && hashes.Length == size && htSize == 0 && fresh(hashes)
      ensures Unique(hashes[..]) && Reachable(hashes[..])
    {
      hashes, this.unknown, htSize := new nat[size](_ => 0), unknown, 0;
      new;
      hide At;
      assert forall i :: 0 <= i < size ==> hashes[..][i] == 0;
    }

    /** Finds the slot of a hash or claims one for it; once the table is half full, new hashes share one slot. It stops
        only if the table is full or seven tenths of it are counted. */
    method GetHtPos(hash: nat, force: bool) returns (r: Lookup)
      requires hashes.Length > 0 && Unique(hashes[..]) && Reachable(hashes[..])
      modifies hashes, `htSize
      ensures Unique(hashes[..]) && Reachable(hashes[..]) && Grown(old(hashes[..]), hashes[..])
      ensures r.Found? ==> && r.pos < hashes.Length && (r.hash != 0 ==> hashes[r.pos] == r.hash)
                           && (r.hash == hash || (!force && r.hash == unknown && old(htSize) > hashes.Length / 2))
      ensures r.Stopped? ==> Full(hashes[..]) || htSize * 10 >= hashes.Length * 7
      decreases !force
    {
      hide Unique, Reachable, Seen, At;
      var pos: nat, wasOverflow := hash % hashes.Length, false;
      StartOk(hashes[..], hash, force);
      while true
        invariant hashes[..] == old(hashes[..]) && htSize == old(htSize)
        invariant pos < hashes.Length && ThreadOk(hashes[..], Thread(Probing, hash, pos, wasOverflow, force))
        decreases 2 * hashes.Length - Moves(hashes.Length, Thread(Probing, hash, pos, wasOverflow, force))
      {
        ghost var slots, th := hashes[..], Thread(Probing, hash, pos, wasOverflow, force);
        var found := hashes[pos];
        if found == 0 {
          if htSize > hashes.Length / 2 {
            if force {
              if htSize * 10 >= hashes.Length * 7 { return Stopped; }
            } else {
              r := GetHtPos(unknown, true);
              return;
            }
          }
          ClaimKeeps(slots, th);
          hashes[pos] := hash;
          assert hashes[..] == slots[pos := hash];
          htSize := htSize + 1;
          return Found(pos, hash);
        } else if found == hash {
          return Found(pos, hash);
        }
        AdvanceKeeps(slots, th);
        pos := pos + 1;
        if pos == hashes.Length {
          pos := 0;
          if wasOverflow { return Stopped; }
          wasOverflow := true;
        }
      }
    }
  }
}
