/** The accounting of live memory by call site: every allocation is added to the slot its lookup returned and subtracted
    again when it is freed. Lookups, registrations and frees of all threads interleave. */
module MemprofAccounting {
  import opened MemprofTable
  import MemprofAbort
  import MemprofAssertion

  /** An allocation: the size asked for, the size that is kept with it, its slot and the hash its lookup ended with. */
  datatype Info = Info(asked: nat, size: int, pos: nat, hash: nat)

  /** `failed` is set when one of the profiler's own assertions fails. */
  datatype Heap = Heap(table: World, sizes: seq<nat>, live: map<nat, Info>, failed: bool)

  datatype Event = Lookup(step: Step)
                 | Malloc(t: nat, ptr: nat, size: nat)
                 | Free(ptr: nat)
                 | Realloc(t: nat, ptr: nat, size: nat, former: nat)

  /** The size as it is kept: the low 32 bits, signed. */
  function Kept(size: nat): int
  {
    var low := size % 0x1_0000_0000;
    if low < 0x8000_0000 then low else low - 0x1_0000_0000
  }

  /** A thread that has finished its lookup registers the allocation, at an address that is not in use. */
  function Register(h: Heap, t: nat, ptr: nat, size: nat): Heap
  {
    if h.failed || t >= |h.table.threads| || ptr in h.live then h
    else
      var th := h.table.threads[t];
      if !th.phase.Done? || th.pos >= |h.sizes| then h
      else if Kept(size) < 0 then h.(failed := true)
      else
        h.(table := h.table.(threads := h.table.threads[t := th.(phase := Idle)]),
           sizes := h.sizes[th.pos := h.sizes[th.pos] + Kept(size)],
           live := h.live[ptr := Info(size, Kept(size), th.pos, th.hash)])
  }

  function Unregister(h: Heap, ptr: nat): Heap
  {
    if h.failed || ptr !in h.live then h
    else
      var info := h.live[ptr];
      if info.size < 0 || info.pos >= |h.sizes| || h.sizes[info.pos] < info.size then h.(failed := true)
      else h.(sizes := h.sizes[info.pos := h.sizes[info.pos] - info.size], live := h.live - {ptr})
  }

  function Apply(h: Heap, e: Event): Heap
  {
    match e
    case Lookup(step) => h.(table := MemprofTable.Apply(h.table, step))
    case Malloc(t, ptr, size) => Register(h, t, ptr, size)
    case Free(ptr) => Unregister(h, ptr)
    case Realloc(t, ptr, size, former) =>
      var registered := Register(h, t, ptr, size);
      if ptr in registered.live && ptr !in h.live then Unregister(registered, former) else registered
  }

  function Run(h: Heap, es: seq<Event>): Heap
    decreases |es|
  {
    if es == [] then h else Run(Apply(h, es[0]), es[1..])
  }

  // ---------------------------------------------------------------------------------------------------------
  // Sums over live allocations
  // ---------------------------------------------------------------------------------------------------------

  ghost function Sum(live: map<nat, Info>, f: Info -> int): int
    decreases |live|
  {
    if live == map[] then 0
    else
      var ptr :| ptr in live;
      f(live[ptr]) + Sum(live - {ptr}, f)
  }

  lemma {:induction false} SumSplit(live: map<nat, Info>, f: Info -> int, ptr: nat)
    requires ptr in live
    ensures Sum(live, f) == f(live[ptr]) + Sum(live - {ptr}, f)
    decreases |live|
  {
    var first :| first in live && Sum(live, f) == f(live[first]) + Sum(live - {first}, f);
    if first != ptr {
      SumSplit(live - {first}, f, ptr);
      SumSplit(live - {ptr}, f, first);
      assert live - {first} - {ptr} == live - {ptr} - {first};
    }
  }

  lemma SumAdd(live: map<nat, Info>, f: Info -> int, ptr: nat, info: Info)
    requires ptr !in live
    ensures Sum(live[ptr := info], f) == f(info) + Sum(live, f)
  {
    SumSplit(live[ptr := info], f, ptr);
    assert live[ptr := info] - {ptr} == live;
  }

  lemma {:induction false} SumSame(live: map<nat, Info>, f: Info -> int, g: Info -> int)
    requires forall ptr :: ptr in live ==> f(live[ptr]) == g(live[ptr])
    ensures Sum(live, f) == Sum(live, g)
    decreases |live|
  {
    if live != map[] {
      var ptr :| ptr in live;
      SumSplit(live, f, ptr);
      SumSplit(live, g, ptr);
      SumSame(live - {ptr}, f, g);
    }
  }

  lemma {:induction false} SumBoth(live: map<nat, Info>, f: Info -> int, g: Info -> int, both: Info -> int)
    requires forall ptr :: ptr in live ==> both(live[ptr]) == f(live[ptr]) + g(live[ptr])
    ensures Sum(live, both) == Sum(live, f) + Sum(live, g)
    decreases |live|
  {
    if live != map[] {
      var ptr :| ptr in live;
      SumSplit(live, f, ptr);
      SumSplit(live, g, ptr);
      SumSplit(live, both, ptr);
      SumBoth(live - {ptr}, f, g, both);
    }
  }

  /** Summands that are no larger give a sum that is no larger, and the same sum only if they are all the same. */
  lemma {:induction false} SumNoLarger(live: map<nat, Info>, f: Info -> int, g: Info -> int)
    requires forall ptr :: ptr in live ==> f(live[ptr]) <= g(live[ptr])
    ensures Sum(live, f) <= Sum(live, g)
    ensures Sum(live, f) == Sum(live, g) <==> forall ptr :: ptr in live ==> f(live[ptr]) == g(live[ptr])
    decreases |live|
  {
    if live != map[] {
      var ptr :| ptr in live;
      SumSplit(live, f, ptr);
      SumSplit(live, g, ptr);
      var rest := live - {ptr};
      SumNoLarger(rest, f, g);
      forall other | other in rest ensures rest[other] == live[other] {
      }
      if forall other :: other in live ==> f(live[other]) == g(live[other]) {
        assert forall other :: other in rest ==> f(rest[other]) == g(rest[other]);
      }
      if Sum(live, f) == Sum(live, g) {
        forall other | other in live ensures f(live[other]) == g(live[other]) {
          if other != ptr { assert other in rest; }
        }
      }
    }
  }

  function AtSlot(p: nat): Info -> int { (info: Info) => if info.pos == p then info.size else 0 }

  function OfSite(hash: nat): Info -> int { (info: Info) => if info.hash == hash then info.size else 0 }

  function Unhashed(p: nat): Info -> int
  {
    (info: Info) => if info.pos == p && info.hash == 0 then info.size else 0
  }

  function AnySite(): Info -> int { (info: Info) => info.size }

  function Asked(): Info -> int { (info: Info) => info.asked }

  function Total(sizes: seq<nat>): nat
  {
    if sizes == [] then 0 else sizes[0] + Total(sizes[1..])
  }

  lemma {:induction false} TotalUpdate(sizes: seq<nat>, p: nat, v: nat)
    requires p < |sizes|
    ensures Total(sizes[p := v]) == Total(sizes) - sizes[p] + v
    decreases |sizes|
  {
    if p > 0 {
      TotalUpdate(sizes[1..], p - 1, v);
      assert sizes[p := v][1..] == sizes[1..][p - 1 := v];
    } else {
      assert sizes[p := v][1..] == sizes[1..];
    }
  }

  lemma {:induction false} SumNonNegative(live: map<nat, Info>, f: Info -> int)
    requires forall ptr :: ptr in live ==> f(live[ptr]) >= 0
    ensures Sum(live, f) >= 0
    decreases |live|
  {
    if live != map[] {
      var ptr :| ptr in live;
      SumSplit(live, f, ptr);
      SumNonNegative(live - {ptr}, f);
    }
  }

  // ---------------------------------------------------------------------------------------------------------
  // What every event keeps
  // ---------------------------------------------------------------------------------------------------------

  ghost predicate InfosOk(h: Heap)
  {
    forall ptr :: ptr in h.live ==>
      && 0 <= h.live[ptr].size == Kept(h.live[ptr].asked) && h.live[ptr].pos < |h.table.slots|
      && (h.live[ptr].hash != 0 ==> h.table.slots[h.live[ptr].pos] == h.live[ptr].hash)
  }

  ghost predicate SizesOk(h: Heap)
  {
    && (forall p :: 0 <= p < |h.sizes| ==> h.sizes[p] == Sum(h.live, AtSlot(p)))
    && Total(h.sizes) == Sum(h.live, AnySite())
  }

  ghost predicate Inv(h: Heap)
  {
    MemprofTable.Inv(h.table) && |h.sizes| == |h.table.slots| && InfosOk(h) && SizesOk(h)
  }

  lemma LookupKeeps(h: Heap, step: Step)
    requires Inv(h)
    ensures Inv(Apply(h, Lookup(step)))
  {
    hide MemprofTable.Inv, SizesOk, Kept;
    MemprofTable.StepKeeps(h.table, step);
    var h' := Apply(h, Lookup(step));
    assert SizesOk(h') by { SizesDepend(h, h'); }
    forall ptr | ptr in h'.live
      ensures 0 <= h'.live[ptr].size == Kept(h'.live[ptr].asked) && h'.live[ptr].pos < |h'.table.slots|
      ensures h'.live[ptr].hash != 0 ==> h'.table.slots[h'.live[ptr].pos] == h'.live[ptr].hash
    {
      assert h.live[ptr] == h'.live[ptr];
    }
  }

  lemma SizesDepend(h: Heap, h': Heap)
    requires SizesOk(h) && h'.sizes == h.sizes && h'.live == h.live
    ensures SizesOk(h')
  {
  }

  lemma RegisteredSizes(h: Heap, ptr: nat, info: Info)
    requires SizesOk(h) && ptr !in h.live && info.pos < |h.sizes| && info.size >= 0
    ensures SizesOk(h.(sizes := h.sizes[info.pos := h.sizes[info.pos] + info.size], live := h.live[ptr := info]))
  {
    var sizes, live := h.sizes[info.pos := h.sizes[info.pos] + info.size], h.live[ptr := info];
    TotalUpdate(h.sizes, info.pos, h.sizes[info.pos] + info.size);
    SumAdd(h.live, AnySite(), ptr, info);
    forall p | 0 <= p < |sizes| ensures sizes[p] == Sum(live, AtSlot(p)) {
      SumAdd(h.live, AtSlot(p), ptr, info);
    }
  }

  lemma FreedSizes(h: Heap, ptr: nat)
    requires SizesOk(h) && ptr in h.live && h.live[ptr].pos < |h.sizes|
    requires 0 <= h.live[ptr].size <= h.sizes[h.live[ptr].pos]
    ensures var info := h.live[ptr];
            SizesOk(h.(sizes := h.sizes[info.pos := h.sizes[info.pos] - info.size], live := h.live - {ptr}))
  {
    var info := h.live[ptr];
    var sizes, live := h.sizes[info.pos := h.sizes[info.pos] - info.size], h.live - {ptr};
    TotalUpdate(h.sizes, info.pos, h.sizes[info.pos] - info.size);
    SumSplit(h.live, AnySite(), ptr);
    forall p | 0 <= p < |sizes| ensures sizes[p] == Sum(live, AtSlot(p)) {
      SumSplit(h.live, AtSlot(p), ptr);
    }
  }

  /** What is subtracted for an allocation was added for it. */
  lemma EnoughThere(h: Heap, ptr: nat)
    requires Inv(h) && ptr in h.live
    ensures 0 <= h.live[ptr].size <= h.sizes[h.live[ptr].pos]
  {
    hide MemprofTable.Inv;
    var p := h.live[ptr].pos;
    SumSplit(h.live, AtSlot(p), ptr);
    SumNonNegative(h.live - {ptr}, AtSlot(p));
  }

  lemma IdleKeeps(w: World, t: nat)
    requires MemprofTable.Inv(w) && t < |w.threads|
    ensures MemprofTable.Inv(w.(threads := w.threads[t := w.threads[t].(phase := Idle)]))
  {
    hide Unique, Reachable, Seen;
    assert ThreadOk(w.slots, w.threads[t]);
  }

  lemma RegisterKeeps(h: Heap, t: nat, ptr: nat, size: nat)
    requires Inv(h)
    ensures Inv(Register(h, t, ptr, size))
  {
    hide SizesOk, MemprofTable.Inv, Kept;
    var h' := Register(h, t, ptr, size);
    if h'.live != h.live {
      var th := h.table.threads[t];
      var info := Info(size, Kept(size), th.pos, th.hash);
      RegisteredSizes(h, ptr, info);
      SizesDepend(h.(sizes := h'.sizes, live := h'.live), h');
      IdleKeeps(h.table, t);
      DoneHolds(h.table, t);
    } else if t < |h.table.threads| {
      SameLive(h, h', t);
    }
  }

  lemma DoneHolds(w: World, t: nat)
    requires MemprofTable.Inv(w) && t < |w.threads| && w.threads[t].phase.Done?
    ensures w.threads[t].pos < |w.slots| && (w.threads[t].hash != 0 ==> w.slots[w.threads[t].pos] == w.threads[t].hash)
  {
    assert ThreadOk(w.slots, w.threads[t]);
  }

  lemma SameLive(h: Heap, h': Heap, t: nat)
    requires Inv(h) && (h' == h || h' == h.(failed := true))
    ensures Inv(h')
  {
    hide MemprofTable.Inv;
  }

  lemma UnregisterKeeps(h: Heap, ptr: nat)
    requires Inv(h)
    ensures Inv(Unregister(h, ptr)) && Unregister(h, ptr).failed == h.failed
  {
    hide SizesOk, MemprofTable.Inv, Kept;
    if !h.failed && ptr in h.live {
      EnoughThere(h, ptr);
      FreedSizes(h, ptr);
    }
  }

  /** A thread that has finished its lookup registers, at a free address, a size that is kept as a negative number. */
  predicate Refused(h: Heap, e: Event)
  {
    && (e.Malloc? || e.Realloc?) && Kept(e.size) < 0
    && e.t < |h.table.threads| && h.table.threads[e.t].phase.Done? && e.ptr !in h.live
  }

  /** The assertions about the sum of a slot never fail; the one about a kept size fails for such an allocation. */
  lemma EventKeeps(h: Heap, e: Event)
    requires Inv(h)
    ensures Inv(Apply(h, e)) && (Apply(h, e).failed <==> h.failed || Refused(h, e))
  {
    hide Inv, Kept;
    match e {
      case Lookup(step) => LookupKeeps(h, step);
      case Malloc(t, ptr, size) =>
        RegisterKeeps(h, t, ptr, size);
        RegisterFails(h, t, ptr, size);
      case Free(ptr) => UnregisterKeeps(h, ptr);
      case Realloc(t, ptr, size, former) =>
        RegisterKeeps(h, t, ptr, size);
        RegisterFails(h, t, ptr, size);
        UnregisterKeeps(Register(h, t, ptr, size), former);
    }
  }

  lemma RegisterFails(h: Heap, t: nat, ptr: nat, size: nat)
    requires Inv(h)
    ensures Register(h, t, ptr, size).failed <==> h.failed || Refused(h, Malloc(t, ptr, size))
  {
    hide MemprofTable.Inv, InfosOk, SizesOk, Kept;
    if t < |h.table.threads| && h.table.threads[t].phase.Done? { DoneHolds(h.table, t); }
  }

  predicate EverRefused(h: Heap, es: seq<Event>)
    decreases |es|
  {
    es != [] && (Refused(h, es[0]) || EverRefused(Apply(h, es[0]), es[1..]))
  }

  lemma {:induction false} RunKeeps(h: Heap, es: seq<Event>)
    requires Inv(h)
    ensures Inv(Run(h, es)) && (Run(h, es).failed <==> h.failed || EverRefused(h, es))
    decreases |es|
  {
    hide Inv, Apply, Refused;
    if es != [] {
      EventKeeps(h, es[0]);
      RunKeeps(Apply(h, es[0]), es[1..]);
    }
  }

  // ---------------------------------------------------------------------------------------------------------
  // The accounting over whole runs
  // ---------------------------------------------------------------------------------------------------------

  ghost predicate Initial(h: Heap)
  {
    && MemprofTable.Initial(h.table) && !h.failed && h.live == map[]
    && |h.sizes| == |h.table.slots| && forall p :: 0 <= p < |h.sizes| ==> h.sizes[p] == 0
  }

  lemma {:induction false} NothingTotal(sizes: seq<nat>)
    requires forall p :: 0 <= p < |sizes| ==> sizes[p] == 0
    ensures Total(sizes) == 0
  {
    if sizes != [] { NothingTotal(sizes[1..]); }
  }

  lemma InitialHeap(h: Heap)
    requires Initial(h)
    ensures Inv(h)
  {
    InitialInv(h.table);
    NothingTotal(h.sizes);
  }

  /** After every run each slot holds the sum of the live allocations registered there, as their sizes are kept, all
      slots together the sum of all live allocations. Of the assertions of the accounting only the one about a kept size
      can have failed, exactly if such a size was negative; the one inside the lookup only with enough threads. */
  lemma SizesMatch(h: Heap, es: seq<Event>)
    requires Initial(h)
    ensures var r := Run(h, es);
            && (forall p :: 0 <= p < |r.sizes| ==> r.sizes[p] == Sum(r.live, AtSlot(p)))
            && Total(r.sizes) == Sum(r.live, AnySite())
    ensures Run(h, es).failed <==> EverRefused(h, es)
    ensures (exists t :: LookupFails(h, es, t)) ==>
              MemprofAssertion.CanFail(|h.table.slots|, |h.table.threads|, h.table.unknown)
  {
    hide Run, EverRefused, LookupFails, MemprofAssertion.CanFail;
    InitialHeap(h);
    RunKeeps(h, es);
    if t :| LookupFails(h, es, t) { LookupFailure(h, es, t); }
  }

  /** The total is never more than what was asked for, and exactly that if and only if every live allocation is smaller
      than two gigabytes. */
  lemma TotalExact(h: Heap, es: seq<Event>)
    requires Initial(h)
    ensures var r := Run(h, es);
            && Total(r.sizes) <= Sum(r.live, Asked())
            && (Total(r.sizes) == Sum(r.live, Asked()) <==>
                forall ptr :: ptr in r.live ==> r.live[ptr].asked < 0x8000_0000)
  {
    hide Run;
    InitialHeap(h);
    RunKeeps(h, es);
    KeptSum(Run(h, es));
  }

  /** A slot holds the sum of the live allocations of the site whose hash is there, and on top of it the sum of those
      whose hash is zero and whose lookup ended in that slot. */
  lemma SizesBySite(h: Heap, es: seq<Event>, p: nat)
    requires Initial(h) && p < |Run(h, es).sizes|
    ensures p < |Run(h, es).table.slots|
    ensures var r := Run(h, es);
            var site := if r.table.slots[p] != 0 then Sum(r.live, OfSite(r.table.slots[p])) else 0;
            r.sizes[p] == site + Sum(r.live, Unhashed(p))
  {
    hide Run;
    InitialHeap(h);
    RunKeeps(h, es);
    var r := Run(h, es);
    if r.table.slots[p] != 0 {
      forall ptr | ptr in r.live
        ensures AtSlot(p)(r.live[ptr]) == OfSite(r.table.slots[p])(r.live[ptr]) + Unhashed(p)(r.live[ptr])
      {
        assert Unique(r.table.slots);
      }
      SumBoth(r.live, OfSite(r.table.slots[p]), Unhashed(p), AtSlot(p));
    } else {
      SumSame(r.live, AtSlot(p), Unhashed(p));
    }
  }

  /** The kept size is the size exactly below two gigabytes, negative from there to four, and never more than it. */
  lemma KeptExactly(size: nat)
    ensures Kept(size) <= size && (Kept(size) == size <==> size < 0x8000_0000)
    ensures 0x8000_0000 <= size < 0x1_0000_0000 ==> Kept(size) < 0
  {
  }

  /** From the empty table, one lookup and an allocation of four gigabytes or more that passes the assertion: the
      total is less than what was asked for. */
  lemma LargeAllocation(h: Heap, hash: nat, ptr: nat, size: nat) returns (es: seq<Event>)
    requires Initial(h) && h.table.threads != [] && size >= 0x1_0000_0000 && Kept(size) >= 0
    ensures var r := Run(h, es);
            && !r.failed && r.live.Keys == {ptr} && r.live[ptr].asked == size
            && Total(r.sizes) == Kept(size) < size == Sum(r.live, Asked())
  {
    es := LookupAndMalloc(hash, ptr, size);
    var r := SiteAllocates(h, hash, ptr, size);
    InitialHeap(h);
    hide Initial, Run, LookupAndMalloc;
    RunKeeps(h, es);
    KeptExactly(size);
    SumAdd(map[], AnySite(), ptr, r.live[ptr]);
    SumAdd(map[], Asked(), ptr, r.live[ptr]);
  }

  /** The first thread looks a site up, without interruption, and allocates. */
  function LookupAndMalloc(hash: nat, ptr: nat, size: nat): seq<Event>
  {
    var next := Lookup(Next(0));
    [Lookup(Begin(0, hash)), next, next, next, next, Malloc(0, ptr, size)]
  }

  /** It finds the first slot of the hash empty, claims and counts it, and the allocation is added there. */
  lemma SiteAllocates(h: Heap, hash: nat, ptr: nat, size: nat) returns (r: Heap)
    requires !h.failed && |h.sizes| == |h.table.slots| > 0 && h.table.threads != []
    requires MemprofAbort.Resting(h.table.threads[0])
    requires h.table.slots[hash % |h.table.slots|] == 0 && h.table.size <= |h.table.slots| / 2
    requires Kept(size) >= 0 && ptr !in h.live
    ensures r == Run(h, LookupAndMalloc(hash, ptr, size))
    ensures var w, p := h.table, hash % |h.table.slots|;
            r == Heap(w.(slots := w.slots[p := hash], size := w.size + 1,
                         threads := w.threads[0 := Thread(Idle, hash, p, false, false)]),
                      h.sizes[p := h.sizes[p] + Kept(size)],
                      h.live[ptr := Info(size, Kept(size), p, hash)], false)
  {
    var es := LookupAndMalloc(hash, ptr, size);
    SixEvents(h, es);
    var looked := LookupRun(h, hash);
    hide Run, Kept;
    r := Register(looked, 0, ptr, size);
  }

  /** The lookup: one probe, one check, one claim, one count. */
  lemma LookupRun(h: Heap, hash: nat) returns (looked: Heap)
    requires h.table.slots != [] && h.table.threads != [] && MemprofAbort.Resting(h.table.threads[0])
    requires h.table.slots[hash % |h.table.slots|] == 0 && h.table.size <= |h.table.slots| / 2
    ensures var next := Lookup(Next(0));
            looked == Apply(Apply(Apply(Apply(Apply(h, Lookup(Begin(0, hash))), next), next), next), next)
    ensures var w, p := h.table, hash % |h.table.slots|;
            looked == h.(table := w.(slots := w.slots[p := hash], size := w.size + 1,
                                     threads := w.threads[0 := Thread(Done, hash, p, false, false)]))
  {
    var a := MemprofTable.Apply(h.table, Begin(0, hash));
    var b := MemprofTable.Apply(a, Next(0));
    var c := MemprofTable.Apply(b, Next(0));
    PassesCheck(h.table, hash);
    ClaimsAndCounts(c);
    hide MemprofTable.Apply;
    looked := h.(table := MemprofTable.Apply(MemprofTable.Apply(c, Next(0)), Next(0)));
  }

  lemma PassesCheck(w: World, hash: nat)
    requires w.slots != [] && w.threads != [] && MemprofAbort.Resting(w.threads[0])
    requires w.slots[hash % |w.slots|] == 0 && w.size <= |w.slots| / 2
    ensures var p, begun := hash % |w.slots|, MemprofTable.Apply(w, Begin(0, hash));
            MemprofTable.Apply(MemprofTable.Apply(begun, Next(0)), Next(0))
            == w.(threads := w.threads[0 := Thread(Claiming, hash, p, false, false)])
  {
    var p := hash % |w.slots|;
    var a := MemprofTable.Apply(w, Begin(0, hash));
    assert a == w.(threads := w.threads[0 := Thread(Probing, hash, p, false, false)]);
    var b := MemprofTable.Apply(a, Next(0));
    assert b == w.(threads := w.threads[0 := Thread(Vacant, hash, p, false, false)]);
  }

  lemma ClaimsAndCounts(w: World)
    requires w.threads != [] && w.threads[0].phase.Claiming? && w.threads[0].pos < |w.slots|
    requires w.slots[w.threads[0].pos] == 0
    ensures var th := w.threads[0];
            MemprofTable.Apply(MemprofTable.Apply(w, Next(0)), Next(0))
            == w.(slots := w.slots[th.pos := th.hash], size := w.size + 1,
                  threads := w.threads[0 := th.(phase := Done)])
  {
  }

  lemma {:induction false} RunAppend(h: Heap, a: seq<Event>, b: seq<Event>)
    ensures Run(h, a + b) == Run(Run(h, a), b)
    decreases |a|
  {
    hide Apply;
    if a == [] {
      assert a + b == b;
    } else {
      RunAppend(Apply(h, a[0]), a[1..], b);
      assert (a + b)[1..] == a[1..] + b;
    }
  }

  /** From the empty table, an allocation with hash zero and one of a site whose first slot is the same: the slot holds
      both, the site only the second. */
  lemma UnhashedAllocation(h: Heap, first: nat, second: nat, a: nat, b: nat) returns (es: seq<Event>, site: nat)
    requires Initial(h) && h.table.threads != [] && |h.table.slots| >= 2 && first != second
    requires 0 < Kept(a) && 0 < Kept(b)
    ensures var r := Run(h, es);
            && !r.failed && |r.sizes| == |r.table.slots| > 0 && r.table.slots[0] == site != 0
            && r.sizes[0] == Kept(a) + Kept(b) && Sum(r.live, OfSite(site)) == Kept(b)
  {
    var n := |h.table.slots|;
    site := n;
    var one, two := LookupAndMalloc(0, first, a), LookupAndMalloc(site, second, b);
    es := one + two;
    assert 0 % n == 0 && n % n == 0 by { MemprofAbort.DivMod(n, n, 1, 0); }
    var m := SiteAllocates(h, 0, first, a);
    assert m.table.slots == h.table.slots;
    var r := SiteAllocates(m, site, second, b);
    RunAppend(h, one, two);
    hide Run, Kept;
    var x, y := Info(a, Kept(a), 0, 0), Info(b, Kept(b), 0, site);
    assert m.live == map[][first := x] && r.live == m.live[second := y];
    SumAdd(map[], OfSite(site), first, x);
    SumAdd(m.live, OfSite(site), second, y);
  }

  lemma SixEvents(h: Heap, es: seq<Event>)
    requires |es| == 6
    ensures Run(h, es) == Apply(Apply(Apply(Apply(Apply(Apply(h, es[0]), es[1]), es[2]), es[3]), es[4]), es[5])
  {
    hide Apply;
    OneEvent(h, es);
    OneEvent(Apply(h, es[0]), es[1..]);
    var three := Apply(Apply(Apply(h, es[0]), es[1]), es[2]);
    OneEvent(Apply(Apply(h, es[0]), es[1]), es[1..][1..]);
    assert es[1..][1..][1..] == es[3..];
    OneEvent(three, es[3..]);
    OneEvent(Apply(three, es[3]), es[3..][1..]);
    OneEvent(Apply(Apply(three, es[3]), es[4]), es[3..][1..][1..]);
  }

  lemma OneEvent(h: Heap, es: seq<Event>)
    requires es != []
    ensures Run(h, es) == Run(Apply(h, es[0]), es[1..])
    ensures |es| == 1 ==> Run(h, es) == Apply(h, es[0])
  {
    hide Apply;
  }

  // ---------------------------------------------------------------------------------------------------------
  // The assertion inside the lookup
  // ---------------------------------------------------------------------------------------------------------

  lemma EventTight(h: Heap, e: Event)
    requires MemprofAssertion.Tight(h.table)
    ensures MemprofAssertion.Tight(Apply(h, e).table) && SameNumbers(h, Apply(h, e))
  {
    hide Kept, MemprofAssertion.Tight;
    match e {
      case Lookup(step) =>
        MemprofAssertion.StepStaysTight(h.table, step);
        MemprofAssertion.SameNumbers(h.table, step);
      case Malloc(t, ptr, size) => RegisterTight(h, t, ptr, size);
      case Free(ptr) =>
      case Realloc(t, ptr, size, former) => RegisterTight(h, t, ptr, size);
    }
  }

  ghost predicate SameNumbers(h: Heap, r: Heap)
  {
    && |r.table.slots| == |h.table.slots| && |r.table.threads| == |h.table.threads|
    && r.table.unknown == h.table.unknown
  }

  lemma RegisterTight(h: Heap, t: nat, ptr: nat, size: nat)
    requires MemprofAssertion.Tight(h.table)
    ensures MemprofAssertion.Tight(Register(h, t, ptr, size).table) && SameNumbers(h, Register(h, t, ptr, size))
  {
    hide Kept, MemprofTable.Inv, MemprofAssertion.Counted, MemprofAssertion.Restrained;
    var r := Register(h, t, ptr, size);
    if r.table != h.table {
      IdleKeeps(h.table, t);
      MemprofAssertion.QuietStaysTight(h.table, t, h.table.threads[t].(phase := Idle));
    }
  }

  lemma {:induction false} RunTight(h: Heap, es: seq<Event>)
    requires MemprofAssertion.Tight(h.table)
    ensures MemprofAssertion.Tight(Run(h, es).table) && SameNumbers(h, Run(h, es))
    decreases |es|
  {
    hide Apply, MemprofAssertion.Tight;
    if es != [] {
      EventTight(h, es[0]);
      RunTight(Apply(h, es[0]), es[1..]);
    }
  }

  ghost predicate LookupFails(h: Heap, es: seq<Event>, t: nat)
  {
    var r := Run(h, es);
    t < |r.table.threads| && r.table.threads[t].phase.AssertionFailed?
  }

  function Lookups(steps: seq<Step>): seq<Event>
  {
    seq(|steps|, i requires 0 <= i < |steps| => Lookup(steps[i]))
  }

  lemma {:induction false} LookupsOnly(h: Heap, steps: seq<Step>)
    ensures Run(h, Lookups(steps)).table == MemprofTable.Run(h.table, steps)
    decreases |steps|
  {
    hide MemprofTable.Apply;
    if steps != [] {
      assert Lookups(steps)[1..] == Lookups(steps[1..]);
      LookupsOnly(Apply(h, Lookup(steps[0])), steps[1..]);
    }
  }

  /** Over runs of lookups, allocations and frees, too, the assertion inside the lookup can fail if and only if
      there are that many threads. */
  lemma LookupFailsExactly(h: Heap)
    requires Initial(h)
    ensures (exists es, t :: LookupFails(h, es, t)) <==>
              MemprofAssertion.CanFail(|h.table.slots|, |h.table.threads|, h.table.unknown)
  {
    hide Run, MemprofTable.Run, MemprofAssertion.CanFail;
    if es, t :| LookupFails(h, es, t) {
      LookupFailure(h, es, t);
    }
    MemprofAssertion.FailsExactly(h.table);
    if steps, t :| MemprofAssertion.Fails(h.table, steps, t) {
      LookupsOnly(h, steps);
      assert LookupFails(h, Lookups(steps), t);
    }
  }

  lemma LookupFailure(h: Heap, es: seq<Event>, t: nat)
    requires Initial(h) && LookupFails(h, es, t)
    ensures MemprofAssertion.CanFail(|h.table.slots|, |h.table.threads|, h.table.unknown)
  {
    hide Run, MemprofAssertion.CanFail;
    MemprofAssertion.InitialTight(h.table);
    RunTight(h, es);
    var w := Run(h, es).table;
    assert MemprofAssertion.Restrained(w, w.threads[t]);
  }

  /** Adds up the slots: the sum of the live allocations as they are kept, which is what was asked for if and only if
      every live allocation is smaller than two gigabytes. */
  method GetUsedMemorySize(h: Heap) returns (res: nat)
    requires Inv(h)
    ensures res == Sum(h.live, AnySite()) <= Sum(h.live, Asked())
    ensures res == Sum(h.live, Asked()) <==> forall ptr :: ptr in h.live ==> h.live[ptr].asked < 0x8000_0000
  {
    res := 0;
    var i := 0;
    while i < |h.sizes|
      invariant 0 <= i <= |h.sizes| && res + Total(h.sizes[i..]) == Total(h.sizes)
    {
      assert h.sizes[i..][1..] == h.sizes[i + 1..];
      if h.sizes[i] != 0 { res := res + h.sizes[i]; }
      i := i + 1;
    }
    KeptSum(h);
  }

  lemma KeptSum(h: Heap)
    requires Inv(h)
    ensures Sum(h.live, AnySite()) <= Sum(h.live, Asked())
    ensures Sum(h.live, AnySite()) == Sum(h.live, Asked()) <==>
            forall ptr :: ptr in h.live ==> h.live[ptr].asked < 0x8000_0000
  {
    hide Kept, MemprofTable.Inv, SizesOk;
    forall ptr | ptr in h.live
      ensures h.live[ptr].size <= h.live[ptr].asked
      ensures h.live[ptr].size == h.live[ptr].asked <==> h.live[ptr].asked < 0x8000_0000
    {
      KeptExactly(h.live[ptr].asked);
    }
    SumNoLarger(h.live, AnySite(), Asked());
  }
}
