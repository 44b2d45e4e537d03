/** A ring buffer between one writer and one reader. Each side works on its own copies of the two counters and
    publishes its own; the counters are 32-bit and wrap around. A run is any interleaving of the sides' steps. */
module RingQueue {

  const SIZE := 1024
  const WORD := 0x1_0000_0000

  /** The published counter of a side, and its own copies of both counters. */
  datatype Position = Position(i: nat, localRead: nat, localWrite: nat)

  datatype Ring = Ring(q: seq<int>, writer: Position, reader: Position)

  predicate WellFormed(r: Ring)
  {
    |r.q| == SIZE
  }

  predicate ReaderEmpty(r: Ring)
  {
    r.reader.localWrite == r.reader.localRead
  }

  predicate WriterFull(r: Ring)
  {
    r.writer.localWrite == (r.writer.localRead + SIZE) % WORD
  }

  function ReaderReady(r: Ring): nat
  {
    (r.reader.localWrite - r.reader.localRead) % WORD
  }

  function WriterReady(r: Ring): nat
  {
    (r.writer.localRead + SIZE - r.writer.localWrite) % WORD
  }

  // ---------------------------------------------------------------------------------------------------------
  // Runs
  // ---------------------------------------------------------------------------------------------------------

  datatype Step = Put(val: int) | FlushWriter | UpdateWriter | Get | FlushReader | UpdateReader

  /** The ring, and the values put and read so far. */
  datatype World = World(ring: Ring, put: seq<int>, got: seq<int>)

  function Slot(counter: nat): nat { counter % SIZE }

  function PutUnsafe(r: Ring, val: int): Ring
    requires WellFormed(r)
  {
    r.(q := r.q[Slot(r.writer.localWrite) := val],
       writer := r.writer.(localWrite := (r.writer.localWrite + 1) % WORD))
  }

  function GetUnsafe(r: Ring): Ring
  {
    r.(reader := r.reader.(localRead := (r.reader.localRead + 1) % WORD))
  }

  function PublishWrites(r: Ring): Ring
  {
    r.(writer := r.writer.(i := r.writer.localWrite))
  }

  function PublishReads(r: Ring): Ring
  {
    r.(reader := r.reader.(i := r.reader.localRead))
  }

  function LookAtWrites(r: Ring): Ring
  {
    r.(reader := r.reader.(localWrite := r.writer.i))
  }

  function LookAtReads(r: Ring): Ring
  {
    r.(writer := r.writer.(localRead := r.reader.i))
  }

  /** A side that is not ready makes no step: the writer must not put into a full ring, the reader waits. */
  function Apply(w: World, step: Step): (w': World)
    requires WellFormed(w.ring)
    ensures WellFormed(w'.ring)
  {
    var r := w.ring;
    match step
    case Put(val) => if WriterFull(r) then w else World(PutUnsafe(r, val), w.put + [val], w.got)
    case FlushWriter => w.(ring := PublishWrites(r))
    case UpdateWriter => w.(ring := LookAtReads(r))
    case Get =>
      if ReaderEmpty(r) then w else World(GetUnsafe(r), w.put, w.got + [r.q[Slot(r.reader.localRead)]])
    case FlushReader => w.(ring := PublishReads(r))
    case UpdateReader => w.(ring := LookAtWrites(r))
  }

  function Run(w: World, steps: seq<Step>): (w': World)
    requires WellFormed(w.ring)
    ensures WellFormed(w'.ring)
    decreases |steps|
  {
    if steps == [] then w else Run(Apply(w, steps[0]), steps[1..])
  }

  function Start(q: seq<int>): World
    requires |q| == SIZE
  {
    World(Ring(q, Position(0, 0, 0), Position(0, 0, 0)), [], [])
  }

  // ---------------------------------------------------------------------------------------------------------
  // What every step keeps
  // ---------------------------------------------------------------------------------------------------------

  /** The true values behind the published and copied counters: reads and writes published, writes the reader knows of,
      reads the writer knows of. */
  datatype Counts = Counts(puts: nat, gets: nat, seenPuts: nat, seenGets: nat)

  ghost predicate Ordered(w: World, c: Counts)
  {
    && |w.got| <= c.seenPuts <= c.puts <= |w.put|
    && c.seenGets <= c.gets <= |w.got|
    && |w.put| <= c.seenGets + SIZE
  }

  ghost predicate Represents(r: Ring, put: nat, got: nat, c: Counts)
  {
    && r.writer == Position(c.puts % WORD, c.seenGets % WORD, put % WORD)
    && r.reader == Position(c.gets % WORD, got % WORD, c.seenPuts % WORD)
  }

  /** Every value not yet read is still in its slot. */
  ghost predicate Unread(w: World)
    requires WellFormed(w.ring)
  {
    forall k :: |w.got| <= k < |w.put| ==> w.ring.q[Slot(k)] == w.put[k]
  }

  ghost predicate Inv(w: World, c: Counts)
  {
    && WellFormed(w.ring) && Ordered(w, c) && Represents(w.ring, |w.put|, |w.got|, c)
    && Unread(w) && w.got <= w.put
  }

  lemma ModStep(n: nat)
    ensures (n % WORD + 1) % WORD == (n + 1) % WORD
    ensures Slot(n % WORD) == Slot(n)
  {
    assert WORD == SIZE * 4194304;
    var q, r := n / WORD, n % WORD;
    assert n == SIZE * (4194304 * q) + r;
    assert Slot(n) == r % SIZE by { SlotShift(4194304 * q, r); }
  }

  lemma SlotShift(q: nat, r: nat)
    ensures (SIZE * q + r) % SIZE == r % SIZE
  {
  }

  /** Wrapped counters at most a ring apart compare like the true ones. */
  lemma ModCompare(low: nat, high: nat)
    requires low <= high <= low + SIZE
    ensures high % WORD == low % WORD <==> high == low
    ensures (high % WORD - low % WORD) % WORD == high - low
  {
    var d := high - low;
    var q, r := low / WORD, low % WORD;
    assert low == WORD * q + r;
    if r + d < WORD {
      assert high == WORD * q + (r + d);
      assert high % WORD == r + d;
    } else {
      assert high == WORD * (q + 1) + (r + d - WORD);
      assert high % WORD == r + d - WORD;
    }
  }

  lemma FullExactly(w: World, c: Counts)
    requires Inv(w, c)
    ensures WriterFull(w.ring) <==> |w.put| == c.seenGets + SIZE
    ensures WriterReady(w.ring) == c.seenGets + SIZE - |w.put|
  {
    hide Unread;
    ModCompare(|w.put|, c.seenGets + SIZE);
    WrapAdd(c.seenGets);
    WrapDifference((c.seenGets + SIZE) % WORD, c.seenGets % WORD + SIZE, |w.put| % WORD);
  }

  lemma WrapAdd(n: nat)
    ensures (n % WORD + SIZE) % WORD == (n + SIZE) % WORD
  {
  }

  lemma WrapDifference(a: nat, b: nat, x: nat)
    requires b % WORD == a % WORD
    ensures (b - x) % WORD == (a - x) % WORD
  {
  }

  lemma EmptyExactly(w: World, c: Counts)
    requires Inv(w, c)
    ensures ReaderEmpty(w.ring) <==> c.seenPuts == |w.got|
    ensures ReaderReady(w.ring) == c.seenPuts - |w.got|
  {
    hide Unread;
    ModCompare(|w.got|, c.seenPuts);
  }

  lemma SlotsDiffer(a: nat, b: nat)
    requires a < b < a + SIZE
    ensures Slot(a) != Slot(b)
  {
  }

  lemma PutKeeps(w: World, c: Counts, val: int)
    requires Inv(w, c)
    ensures Inv(Apply(w, Put(val)), c)
  {
    FullExactly(w, c);
    ModStep(|w.put|);
    if !WriterFull(w.ring) {
      var w' := Apply(w, Put(val));
      forall k | |w'.got| <= k < |w'.put| ensures w'.ring.q[Slot(k)] == w'.put[k] {
        if k < |w.put| { SlotsDiffer(k, |w.put|); }
      }
    }
  }

  lemma GetKeeps(w: World, c: Counts)
    requires Inv(w, c)
    ensures Inv(Apply(w, Get), c)
  {
    EmptyExactly(w, c);
    ModStep(|w.got|);
    if !ReaderEmpty(w.ring) {
      assert w.ring.q[Slot(|w.got|)] == w.put[|w.got|];
    }
  }

  lemma StepKeeps(w: World, c: Counts, step: Step) returns (c': Counts)
    requires Inv(w, c)
    ensures Inv(Apply(w, step), c')
  {
    c' := match step
      case Put(_) => c
      case Get => c
      case FlushWriter => c.(puts := |w.put|)
      case UpdateWriter => c.(seenGets := c.gets)
      case FlushReader => c.(gets := |w.got|)
      case UpdateReader => c.(seenPuts := c.puts);
    match step {
      case Put(val) => PutKeeps(w, c, val);
      case Get => GetKeeps(w, c);
      case _ =>
    }
  }

  lemma {:induction false} RunKeeps(w: World, c: Counts, steps: seq<Step>) returns (c': Counts)
    requires Inv(w, c)
    ensures Inv(Run(w, steps), c')
    decreases |steps|
  {
    hide Apply;
    if steps == [] {
      c' := c;
    } else {
      var mid := StepKeeps(w, c, steps[0]);
      c' := RunKeeps(Apply(w, steps[0]), mid, steps[1..]);
    }
  }

  // ---------------------------------------------------------------------------------------------------------
  // The ring is a queue
  // ---------------------------------------------------------------------------------------------------------

  /** In every interleaving, whatever the ring held at first, the values read are a prefix of the values put, at most a
      ring full of values is on its way, and all of those are still in the ring. */
  lemma Fifo(q: seq<int>, steps: seq<Step>)
    requires |q| == SIZE
    ensures var w := Run(Start(q), steps);
            && w.got <= w.put && |w.put| <= |w.got| + SIZE
            && forall k :: |w.got| <= k < |w.put| ==> w.ring.q[Slot(k)] == w.put[k]
  {
    var c := RunKeeps(Start(q), Counts(0, 0, 0, 0), steps);
  }

  /** No step of either side changes a slot that holds an unread value. */
  lemma NoOverwrite(q: seq<int>, steps: seq<Step>, step: Step, k: nat)
    requires |q| == SIZE
    requires var w := Run(Start(q), steps); |w.got| <= k < |w.put|
    ensures Apply(Run(Start(q), steps), step).ring.q[Slot(k)] == Run(Start(q), steps).ring.q[Slot(k)]
  {
    hide Run;
    var w := Run(Start(q), steps);
    var c := RunKeeps(Start(q), Counts(0, 0, 0, 0), steps);
    if step.Put? {
      FullExactly(w, c);
      ModStep(|w.put|);
      if !WriterFull(w.ring) { SlotsDiffer(k, |w.put|); }
    }
  }

  /** What has been flushed can be read: after the writer publishes and the reader looks, the reader is ready for
      exactly the values put and not yet read. */
  lemma FlushedIsReady(q: seq<int>, steps: seq<Step>)
    requires |q| == SIZE
    ensures var w := Run(Start(q), steps);
            ReaderReady(Apply(Apply(w, FlushWriter), UpdateReader).ring) == |w.put| - |w.got|
  {
    hide Run;
    var w := Run(Start(q), steps);
    var c := RunKeeps(Start(q), Counts(0, 0, 0, 0), steps);
    var c' := StepKeeps(w, c, FlushWriter);
    var flushed := Apply(w, FlushWriter);
    var c'' := Counts(|w.put|, c.gets, |w.put|, c.seenGets);
    EmptyExactly(Apply(flushed, UpdateReader), c'');
  }

  /** And after the reader publishes and the writer looks, the writer has room for exactly the rest of the ring. */
  lemma FreedIsReady(q: seq<int>, steps: seq<Step>)
    requires |q| == SIZE
    ensures var w := Run(Start(q), steps);
            WriterReady(Apply(Apply(w, FlushReader), UpdateWriter).ring) == |w.got| + SIZE - |w.put|
  {
    hide Run;
    var w := Run(Start(q), steps);
    var c := RunKeeps(Start(q), Counts(0, 0, 0, 0), steps);
    var c'' := Counts(c.puts, |w.got|, c.seenPuts, |w.got|);
    FullExactly(Apply(Apply(w, FlushReader), UpdateWriter), c'');
  }

  /** The writer looks at the published counter of the reader only when its own copy leaves no room. */
  function Placed(w: World, val: int): World
    requires WellFormed(w.ring)
  {
    Apply(if WriterFull(w.ring) then Apply(w, UpdateWriter) else w, Put(val))
  }

  function Taken(w: World): World
    requires WellFormed(w.ring)
  {
    Apply(if ReaderEmpty(w.ring) then Apply(w, UpdateReader) else w, Get)
  }

  lemma PlacedKeeps(w: World, c: Counts, val: int) returns (c': Counts)
    requires Inv(w, c)
    ensures Inv(Placed(w, val), c')
  {
    assert WellFormed(w.ring);
    hide Inv, Apply, WriterFull;
    c' := c;
    if WriterFull(w.ring) { c' := StepKeeps(w, c, UpdateWriter); }
    c' := StepKeeps(if WriterFull(w.ring) then Apply(w, UpdateWriter) else w, c', Put(val));
  }

  lemma TakenKeeps(w: World, c: Counts) returns (c': Counts)
    requires Inv(w, c)
    ensures Inv(Taken(w), c')
  {
    assert WellFormed(w.ring);
    hide Inv, Apply, ReaderEmpty;
    c' := c;
    if ReaderEmpty(w.ring) { c' := StepKeeps(w, c, UpdateReader); }
    c' := StepKeeps(if ReaderEmpty(w.ring) then Apply(w, UpdateReader) else w, c', Get);
  }

  /** What a side publishes is what the other finds when it looks. */
  lemma PublishedIsSeen(w: World, c: Counts)
    requires Inv(w, c)
    ensures ReaderReady(LookAtWrites(PublishWrites(w.ring))) == |w.put| - |w.got|
    ensures WriterReady(LookAtReads(PublishReads(w.ring))) == |w.got| + SIZE - |w.put|
  {
    EmptyExactly(Apply(Apply(w, FlushWriter), UpdateReader), Counts(|w.put|, c.gets, |w.put|, c.seenGets));
    FullExactly(Apply(Apply(w, FlushReader), UpdateWriter), Counts(c.puts, |w.got|, c.seenPuts, |w.got|));
  }

  lemma GotStays(w: World, val: int)
    requires WellFormed(w.ring)
    ensures Placed(w, val).got == w.got
  {
  }

  lemma PutStays(w: World)
    requires WellFormed(w.ring)
    ensures Taken(w).put == w.put
  {
  }

  // ---------------------------------------------------------------------------------------------------------
  // The object
  // ---------------------------------------------------------------------------------------------------------

  class BufferQueue {
    const q: array<int>
    var writerI: nat
    var writerLocalRead: nat
    var writerLocalWrite: nat
    var readerI: nat
    var readerLocalRead: nat
    var readerLocalWrite: nat

    ghost predicate Valid()
      reads this
    {
      q.Length == SIZE
    }

    function View(): Ring
      reads this, q
    {
      Ring(q[..], Position(writerI, writerLocalRead, writerLocalWrite),
           Position(readerI, readerLocalRead, readerLocalWrite))
    }

    constructor ()
      ensures Valid() && fresh(q)
      ensures View() == Start(q[..]).ring
    {
      q := new int[SIZE];
      writerI, writerLocalRead, writerLocalWrite := 0, 0, 0;
      readerI, readerLocalRead, readerLocalWrite := 0, 0, 0;
    }

    method GetOne() returns (val: int)
      requires Valid()
      modifies `readerLocalRead
      ensures View() == GetUnsafe(old(View())) && val == old(View().q[Slot(View().reader.localRead)])
    {
      val := q[Slot(readerLocalRead)];
      readerLocalRead := (readerLocalRead + 1) % WORD;
    }

    method PutOne(val: int)
      requires Valid()
      modifies q, `writerLocalWrite
      ensures View() == PutUnsafe(old(View()), val)
    {
      q[Slot(writerLocalWrite)] := val;
      writerLocalWrite := (writerLocalWrite + 1) % WORD;
    }

    method FlushReads()
      modifies `readerI
      ensures View() == PublishReads(old(View()))
    {
      readerI := readerLocalRead;
    }

    method FlushWrites()
      modifies `writerI
      ensures View() == PublishWrites(old(View()))
    {
      writerI := writerLocalWrite;
    }

    method LookAtWriter() returns (ready: nat)
      modifies `readerLocalWrite
      ensures View() == LookAtWrites(old(View()))
      ensures ready == ReaderReady(View())
    {
      readerLocalWrite := writerI;
      ready := (readerLocalWrite - readerLocalRead) % WORD;
    }

    method LookAtReader() returns (ready: nat)
      modifies `writerLocalRead
      ensures View() == LookAtReads(old(View()))
      ensures ready == WriterReady(View())
    {
      writerLocalRead := readerI;
      ready := (writerLocalRead + SIZE - writerLocalWrite) % WORD;
    }

    method PutNoFlush(val: int, ghost w: World) returns (ok: bool)
      requires Valid() && w.ring == View() && exists c :: Inv(w, c)
      modifies this, q
      ensures Valid() && View() == Placed(w, val).ring
      ensures Placed(w, val).put == if ok then w.put + [val] else w.put
    {
      ghost var c :| Inv(w, c);
      if writerLocalWrite != (writerLocalRead + SIZE) % WORD {
        PutOne(val);
        return true;
      }
      var ready := LookAtReader();
      ghost var c' := StepKeeps(w, c, UpdateWriter);
      FullExactly(Apply(w, UpdateWriter), c');
      if ready == 0 { return false; }
      PutOne(val);
      ok := true;
    }

    /** One round of the reader's waiting loop. */
    method TryGetNoFlush(ghost w: World) returns (found: bool, val: int)
      requires Valid() && w.ring == View() && exists c :: Inv(w, c)
      modifies this
      ensures Valid() && View() == Taken(w).ring
      ensures Taken(w).got == if found then w.got + [val] else w.got
    {
      ghost var c :| Inv(w, c);
      if readerLocalWrite != readerLocalRead {
        val := GetOne();
        return true, val;
      }
      var ready := LookAtWriter();
      ghost var c' := StepKeeps(w, c, UpdateReader);
      EmptyExactly(Apply(w, UpdateReader), c');
      if ready == 0 { return false, 0; }
      val := GetOne();
      found := true;
    }

    /** A value that is put is published: the reader finds it, and all values before it, when it looks. */
    method PutAndFlush(val: int, ghost w: World) returns (ok: bool)
      requires Valid() && w.ring == View() && exists c :: Inv(w, c)
      modifies this, q
      ensures Valid() && Placed(w, val).put == if ok then w.put + [val] else w.put
      ensures View() == if ok then PublishWrites(Placed(w, val).ring) else Placed(w, val).ring
      ensures ok ==> ReaderReady(LookAtWrites(View())) == |w.put| + 1 - |w.got|
    {
      hide Inv, Placed;
      ghost var c :| Inv(w, c);
      ghost var c' := PlacedKeeps(w, c, val);
      PublishedIsSeen(Placed(w, val), c');
      GotStays(w, val);
      ok := PutNoFlush(val, w);
      if ok { FlushWrites(); }
    }

    /** One round: a value that is read makes room that the writer finds when it looks. */
    method TryGetAndFlush(ghost w: World) returns (found: bool, val: int)
      requires Valid() && w.ring == View() && exists c :: Inv(w, c)
      modifies this
      ensures Valid() && Taken(w).got == if found then w.got + [val] else w.got
      ensures View() == if found then PublishReads(Taken(w).ring) else Taken(w).ring
      ensures found ==> WriterReady(LookAtReads(View())) == |w.got| + 1 + SIZE - |w.put|
    {
      hide Inv, Taken;
      ghost var c :| Inv(w, c);
      ghost var c' := TakenKeeps(w, c);
      PublishedIsSeen(Taken(w), c');
      PutStays(w);
      found, val := TryGetNoFlush(w);
      if found { FlushReads(); }
    }
  }
}
