/** The bounded replay window that refuses message identifiers seen before.

    The window is a strictly increasing buffer of at most `2 * maxSize` identifiers. When it is full its lower
    half is forgotten, so the checker cannot remember everything; what it promises nevertheless is stated
    over whole runs at the end of this module. */
module ReplayWindow {

  datatype Verdict = Accepted | AlreadyProcessed | VeryOld

  datatype Checked = Checked(window: seq<nat>, verdict: Verdict)

  ghost predicate StrictlyIncreasing(w: seq<nat>)
  {
    forall i, j :: 0 <= i < j < |w| ==> w[i] < w[j]
  }

  ghost predicate IsLowerBound(w: seq<nat>, id: nat, p: nat)
  {
    p <= |w| && (forall i :: 0 <= i < p ==> w[i] < id) && (forall i :: p <= i < |w| ==> id <= w[i])
  }

  /** The number of elements below `id`. */
  function LowerBound(w: seq<nat>, id: nat): (p: nat)
    ensures p <= |w|
    ensures forall i :: 0 <= i < p ==> w[i] < id
    ensures p < |w| ==> id <= w[p]
  {
    if w == [] || id <= w[0] then 0 else 1 + LowerBound(w[1..], id)
  }

  function Compacted(w: seq<nat>, maxSize: nat): seq<nat>
  {
    if |w| == 2 * maxSize then w[maxSize..] else w
  }

  /** One call of the checker on the remembered identifiers `w`. */
  function Check(w: seq<nat>, maxSize: nat, id: nat): Checked
  {
    var c := Compacted(w, maxSize);
    var p := LowerBound(c, id);
    if p == |c| then Checked(c + [id], Accepted)
    else if |c| >= maxSize && id < c[0] then Checked(c, VeryOld)
    else if c[p] == id then Checked(c, AlreadyProcessed)
    else Checked(c[..p] + [id] + c[p..], Accepted)
  }

  class MessageIdDuplicateChecker {
    const maxSize: nat
    const saved: array<nat>
    var endPos: nat

    ghost predicate Valid()
      reads this, saved
    {
      1 <= maxSize && saved.Length == 2 * maxSize && endPos <= 2 * maxSize && StrictlyIncreasing(Window())
    }

    ghost function Window(): seq<nat>
      reads this, saved
    {
      if endPos <= saved.Length then saved[..endPos] else []
    }

    constructor (maxSize: nat)
      requires 1 <= maxSize
      ensures Valid() && fresh(saved) && this.maxSize == maxSize && Window() == []
    {
      this.maxSize := maxSize;
      saved := new nat[2 * maxSize];
      endPos := 0;
    }

    /** Forgets the lower half of a full buffer. */
    method Compact()
      requires Valid()
      modifies this`endPos, saved
      ensures Valid() && endPos < 2 * maxSize
      ensures Window() == Compacted(old(Window()), maxSize)
    {
      if endPos == 2 * maxSize {
        var i := 0;
        while i < maxSize
          invariant 0 <= i <= maxSize
          invariant forall k :: 0 <= k < i ==> saved[k] == old(saved[k + maxSize])
          invariant forall k :: maxSize <= k < saved.Length ==> saved[k] == old(saved[k])
        {
          saved[i] := saved[maxSize + i];
          i := i + 1;
        }
        endPos := maxSize;
        assert Window() == old(saved[..])[maxSize..];
      }
    }

    method FindLowerBound(id: nat) returns (p: nat)
      requires Valid()
      ensures p == LowerBound(Window(), id)
      ensures IsLowerBound(Window(), id, p)
    {
      var lo, hi := 0, endPos;
      while lo < hi
        invariant 0 <= lo <= hi <= endPos
        invariant forall i :: 0 <= i < lo ==> Window()[i] < id
        invariant forall i :: hi <= i < endPos ==> id <= Window()[i]
      {
        var mid := (lo + hi) / 2;
        assert Window()[mid] == saved[mid];
        if saved[mid] < id { lo := mid + 1; } else { hi := mid; }
      }
      p := lo;
      LowerBoundUnique(Window(), id, p);
    }

    /** Shifts the elements from `p` on by one place and stores `id` at `p`. */
    method InsertAt(p: nat, id: nat)
      requires Valid() && endPos < 2 * maxSize
      requires IsLowerBound(Window(), id, p) && (p < endPos ==> Window()[p] != id)
      modifies this`endPos, saved
      ensures Valid() && endPos == old(endPos) + 1
      ensures Window() == old(Window())[..p] + [id] + old(Window())[p..]
    {
      ghost var w := Window();
      var j := endPos;
      while p < j
        invariant p <= j <= endPos && endPos == |w|
        invariant forall k :: 0 <= k < j ==> saved[k] == w[k]
        invariant forall k :: j < k <= endPos ==> saved[k] == w[k - 1]
      {
        saved[j] := saved[j - 1];
        j := j - 1;
      }
      saved[p] := id;
      endPos := endPos + 1;
      assert Window() == w[..p] + [id] + w[p..];
      InsertedIncreasing(w, id, p);
    }

    method CheckId(id: nat) returns (verdict: Verdict)
      requires Valid()
      modifies this`endPos, saved
      ensures Valid()
      ensures Checked(Window(), verdict) == Check(old(Window()), maxSize, id)
    {
      hide Check, LowerBound, Compacted;
      ghost var w := Window();
      Compact();
      ghost var c := Window();
      CheckCases(w, maxSize, id, c);
      if endPos == 0 || saved[endPos - 1] < id {
        assert endPos != 0 ==> c[endPos - 1] == saved[endPos - 1];
        InsertAt(endPos, id);
        assert c[..|c|] + [id] + c[|c|..] == c + [id];
        return Accepted;
      }
      assert c[endPos - 1] == saved[endPos - 1] && c[0] == saved[0];
      if endPos >= maxSize && id < saved[0] {
        return VeryOld;
      }
      var p := FindLowerBound(id);
      assert c[p] == saved[p];
      if saved[p] == id {
        return AlreadyProcessed;
      }
      InsertAt(p, id);
      return Accepted;
    }
  }

  /** What a check of the compacted window comes to. */
  lemma CheckCases(w: seq<nat>, maxSize: nat, id: nat, c: seq<nat>)
    requires c == Compacted(w, maxSize) && StrictlyIncreasing(c)
    ensures var p := LowerBound(c, id);
            IsLowerBound(c, id, p) && (p == |c| <==> c == [] || c[|c| - 1] < id)
    ensures c == [] || c[|c| - 1] < id ==>
              IsLowerBound(c, id, |c|) && Check(w, maxSize, id) == Checked(c + [id], Accepted)
    ensures c != [] && id <= c[|c| - 1] ==>
              var p := LowerBound(c, id);
              && p < |c|
              && Check(w, maxSize, id) == if |c| >= maxSize && id < c[0] then Checked(c, VeryOld)
                                          else if c[p] == id then Checked(c, AlreadyProcessed)
                                          else Checked(c[..p] + [id] + c[p..], Accepted)
  {
    var p := LowerBound(c, id);
    assert IsLowerBound(c, id, p);
  }

  lemma {:induction false} LowerBoundUnique(w: seq<nat>, id: nat, p: nat)
    requires IsLowerBound(w, id, p)
    ensures LowerBound(w, id) == p
  {
    var q := LowerBound(w, id);
    assert q < |w| ==> id <= w[q];
    assert p < |w| ==> id <= w[p];
  }

  lemma InsertedIncreasing(w: seq<nat>, id: nat, p: nat)
    requires StrictlyIncreasing(w) && IsLowerBound(w, id, p) && (p < |w| ==> w[p] != id)
    ensures StrictlyIncreasing(w[..p] + [id] + w[p..])
  {
    var r := w[..p] + [id] + w[p..];
    forall i, j | 0 <= i < j < |r| ensures r[i] < r[j] {
      assert p < |w| ==> id < w[p];
      assert j > p ==> r[j] == w[j - 1] && w[p] <= w[j - 1];
    }
  }

  // ---------------------------------------------------------------------------------------------------------
  // Whole runs
  // ---------------------------------------------------------------------------------------------------------

  /** The window and everything accepted after offering `ids` to a new checker, oldest first. */
  datatype Run = Run(window: seq<nat>, accepted: seq<nat>)

  function After(ids: seq<nat>, maxSize: nat): Run
  {
    if ids == [] then Run([], [])
    else
      var before := After(ids[..|ids| - 1], maxSize);
      var id := ids[|ids| - 1];
      var c := Check(before.window, maxSize, id);
      Run(c.window, if c.verdict == Accepted then before.accepted + [id] else before.accepted)
  }

  ghost function Elements(s: seq<nat>): set<nat>
  {
    set x | x in s
  }

  ghost function Greater(accepted: seq<nat>, id: nat): set<nat>
  {
    set x | x in accepted && id < x
  }

  /** `w` holds exactly the `|w|` largest accepted identifiers, and nothing is forgotten below `maxSize`. */
  ghost predicate Remembers(w: seq<nat>, maxSize: nat, accepted: seq<nat>)
  {
    && StrictlyIncreasing(w)
    && |w| <= 2 * maxSize
    && (forall x :: x in w ==> x in accepted)
    && (forall x :: x in accepted && x !in w ==> |w| >= maxSize && w != [] && x < w[0])
  }

  ghost predicate NoDuplicates(s: seq<nat>)
  {
    forall i, j :: 0 <= i < j < |s| ==> s[i] != s[j]
  }

  lemma CompactedRemembers(w: seq<nat>, maxSize: nat, accepted: seq<nat>)
    requires 1 <= maxSize && Remembers(w, maxSize, accepted)
    ensures Remembers(Compacted(w, maxSize), maxSize, accepted)
    ensures |Compacted(w, maxSize)| < 2 * maxSize
  {
    var c := Compacted(w, maxSize);
    assert forall i :: maxSize <= i < |w| && c != w ==> w[i] == c[i - maxSize];
  }

  /** What one call promises, against everything that was ever accepted. */
  lemma CheckSound(w: seq<nat>, maxSize: nat, accepted: seq<nat>, id: nat)
    requires 1 <= maxSize && Remembers(w, maxSize, accepted)
    ensures var r := Check(w, maxSize, id);
            && (r.verdict == Accepted ==> id !in accepted && Remembers(r.window, maxSize, accepted + [id]))
            && (r.verdict != Accepted ==> Remembers(r.window, maxSize, accepted))
            && (r.verdict == AlreadyProcessed ==> id in accepted)
            && (r.verdict == VeryOld ==> |Greater(accepted, id)| >= maxSize)
  {
    CompactedRemembers(w, maxSize, accepted);
    var c := Compacted(w, maxSize);
    var p := LowerBound(c, id);
    assert IsLowerBound(c, id, p);
    var r := Check(w, maxSize, id);
    if r.verdict == Accepted {
      InsertedIncreasing(c, id, p);
      assert c[..p] + [id] + c[p..] == r.window;
      assert forall x :: x in r.window <==> x in c || x == id;
    } else if r.verdict == VeryOld {
      WindowSize(c);
      assert forall i :: 0 <= i < |c| ==> c[0] <= c[i];
      SubsetSize(Elements(c), Greater(accepted, id));
    }
  }

  lemma {:induction false} WindowSize(c: seq<nat>)
    requires StrictlyIncreasing(c)
    ensures |Elements(c)| == |c|
  {
    if c != [] {
      var last := c[|c| - 1];
      var init := c[..|c| - 1];
      WindowSize(init);
      assert c == init + [last];
      assert Elements(c) == Elements(init) + {last};
    }
  }

  lemma {:induction false} SubsetSize(a: set<nat>, b: set<nat>)
    requires a <= b
    ensures |a| <= |b|
  {
    assert b == a + (b - a);
  }

  /** Over every run: no identifier is accepted twice, and the buffer is exactly the largest accepted ones,
      strictly increasing, at most `2 * maxSize` of them. */
  lemma {:induction false} NothingAcceptedTwice(ids: seq<nat>, maxSize: nat)
    requires 1 <= maxSize
    ensures var r := After(ids, maxSize);
            && NoDuplicates(r.accepted)
            && Remembers(r.window, maxSize, r.accepted)
  {
    if ids != [] {
      NothingAcceptedTwice(ids[..|ids| - 1], maxSize);
      var before := After(ids[..|ids| - 1], maxSize);
      CheckSound(before.window, maxSize, before.accepted, ids[|ids| - 1]);
    }
  }

  // ---------------------------------------------------------------------------------------------------------
  // Exactly which identifiers are accepted
  // ---------------------------------------------------------------------------------------------------------

  /** How many identifiers a check looks at after `n` have been accepted. */
  function Kept(n: nat, maxSize: nat): nat
  {
    if n == 0 then 0 else if Kept(n - 1, maxSize) + 1 == 2 * maxSize then maxSize else Kept(n - 1, maxSize) + 1
  }

  /** Never fewer than the last `maxSize`, never as many as twice that. */
  lemma {:induction false} KeptBounds(n: nat, maxSize: nat)
    requires 1 <= maxSize
    ensures Kept(n, maxSize) < 2 * maxSize && (n < 2 * maxSize ==> Kept(n, maxSize) == n)
    ensures maxSize <= n ==> maxSize <= Kept(n, maxSize)
  {
    if n > 0 { KeptBounds(n - 1, maxSize); }
  }

  lemma {:induction false} KeptIsSize(ids: seq<nat>, maxSize: nat)
    requires 1 <= maxSize
    ensures var r := After(ids, maxSize); |Compacted(r.window, maxSize)| == Kept(|r.accepted|, maxSize)
  {
    hide Check, Compacted;
    if ids == [] {
      NothingCompacted(maxSize);
    } else {
      KeptIsSize(ids[..|ids| - 1], maxSize);
      var before := After(ids[..|ids| - 1], maxSize);
      KeptBounds(|before.accepted|, maxSize);
      CheckSize(before.window, maxSize, ids[|ids| - 1]);
    }
  }

  lemma NothingCompacted(maxSize: nat)
    requires 1 <= maxSize
    ensures Compacted([], maxSize) == []
  {
  }

  lemma CheckSize(w: seq<nat>, maxSize: nat, id: nat)
    requires 1 <= maxSize && |Compacted(w, maxSize)| < 2 * maxSize
    ensures var r, size := Check(w, maxSize, id), |Compacted(w, maxSize)|;
            |Compacted(r.window, maxSize)| == if r.verdict != Accepted then size
                                              else if size + 1 == 2 * maxSize then maxSize
                                              else size + 1
  {
    hide LowerBound;
  }

  /** `c` is a top part of the accepted identifiers. */
  ghost predicate TopOf(c: seq<nat>, accepted: seq<nat>)
  {
    && StrictlyIncreasing(c) && (forall x :: x in c ==> x in accepted)
    && (forall x :: x in accepted && x !in c ==> c != [] && x < c[0])
  }

  /** A new identifier is below all of a top part if and only if at least as many accepted ones are above it. */
  lemma BelowExactly(c: seq<nat>, accepted: seq<nat>, id: nat)
    requires TopOf(c, accepted) && c != [] && id !in c
    ensures id < c[0] <==> |c| <= |Greater(accepted, id)|
  {
    WindowSize(c);
    assert forall i :: 0 <= i < |c| ==> c[0] <= c[i];
    if id < c[0] {
      SubsetSize(Elements(c), Greater(accepted, id));
    } else {
      assert c[0] in Elements(c);
      SubsetSize(Greater(accepted, id), Elements(c) - {c[0]});
    }
  }

  /** Over every run: the next identifier is accepted if and only if it was not before and either fewer than `maxSize`
      have been accepted or fewer above it than the checker looks at. */
  lemma AcceptedExactly(ids: seq<nat>, maxSize: nat, id: nat)
    requires 1 <= maxSize
    ensures var r := After(ids, maxSize);
            var taken := id !in r.accepted && (|r.accepted| < maxSize ||
                                               |Greater(r.accepted, id)| < Kept(|r.accepted|, maxSize));
            After(ids + [id], maxSize).accepted == if taken then r.accepted + [id] else r.accepted
  {
    assert (ids + [id])[..|ids|] == ids;
    NothingAcceptedTwice(ids, maxSize);
    KeptIsSize(ids, maxSize);
    var r := After(ids, maxSize);
    KeptBounds(|r.accepted|, maxSize);
    CompactedRemembers(r.window, maxSize, r.accepted);
    NextExactly(r.window, maxSize, r.accepted, id);
  }

  lemma NextExactly(w: seq<nat>, maxSize: nat, accepted: seq<nat>, id: nat)
    requires 1 <= maxSize && Remembers(w, maxSize, accepted)
    requires var c := Compacted(w, maxSize);
             Remembers(c, maxSize, accepted) && (|c| < maxSize <==> |accepted| < maxSize)
    ensures var c := Compacted(w, maxSize);
            Check(w, maxSize, id).verdict == Accepted <==>
              id !in accepted && (|accepted| < maxSize || |Greater(accepted, id)| < |c|)
  {
    var c := Compacted(w, maxSize);
    CheckSound(w, maxSize, accepted, id);
    if id !in accepted && c != [] { BelowExactly(c, accepted, id); }
  }

  // ---------------------------------------------------------------------------------------------------------
  // The description
  // ---------------------------------------------------------------------------------------------------------

  /** The last `n` identifiers are stored; one lower than all or equal to any of them is ignored, any other is stored,
      and the lowest of more than `n` is forgotten. */
  function Described(stored: seq<nat>, n: nat, id: nat): Checked
  {
    if stored != [] && id < stored[0] then Checked(stored, VeryOld)
    else if id in stored then Checked(stored, AlreadyProcessed)
    else
      var p := LowerBound(stored, id);
      var more := stored[..p] + [id] + stored[p..];
      Checked(if |more| > n then more[1..] else more, Accepted)
  }

  function DescribedAfter(ids: seq<nat>, n: nat): Run
  {
    if ids == [] then Run([], [])
    else
      var before := DescribedAfter(ids[..|ids| - 1], n);
      var id := ids[|ids| - 1];
      var c := Described(before.window, n, id);
      Run(c.window, if c.verdict == Accepted then before.accepted + [id] else before.accepted)
  }

  function Least(a: nat, b: nat): nat { if a < b then a else b }

  lemma DescribedStep(stored: seq<nat>, n: nat, accepted: seq<nat>, id: nat)
    requires 1 <= n && TopOf(stored, accepted) && |stored| == Least(|accepted|, n)
    ensures var r := Described(stored, n, id);
            var after := if r.verdict == Accepted then accepted + [id] else accepted;
            TopOf(r.window, after) && |r.window| == Least(|after|, n)
    ensures Described(stored, n, id).verdict == Accepted <==>
              id !in accepted && (accepted == [] || |Greater(accepted, id)| < Least(|accepted|, n))
  {
    if id !in stored && stored != [] { BelowExactly(stored, accepted, id); }
    var r := Described(stored, n, id);
    if r.verdict == Accepted { DescribedKeeps(stored, n, accepted, id); }
  }

  lemma DescribedKeeps(stored: seq<nat>, n: nat, accepted: seq<nat>, id: nat)
    requires 1 <= n && TopOf(stored, accepted) && |stored| == Least(|accepted|, n)
    requires id !in stored && (stored == [] || stored[0] < id)
    ensures TopOf(Described(stored, n, id).window, accepted + [id])
  {
    var p := LowerBound(stored, id);
    var more := stored[..p] + [id] + stored[p..];
    assert IsLowerBound(stored, id, p);
    InsertedIncreasing(stored, id, p);
    assert forall x :: x in more <==> x in stored || x == id;
    if |more| > n {
      assert stored != [] && p > 0 && more[0] == stored[0];
      assert more == [more[0]] + more[1..];
      assert forall x :: x in more[1..] <==> x in more && x != more[0] by {
        assert forall k :: 1 <= k < |more| ==> more[0] < more[k] && more[k] == more[1..][k - 1];
      }
    }
  }

  lemma {:induction false} DescribedHolds(ids: seq<nat>, n: nat)
    requires 1 <= n
    ensures var r := DescribedAfter(ids, n); TopOf(r.window, r.accepted) && |r.window| == Least(|r.accepted|, n)
  {
    if ids != [] {
      DescribedHolds(ids[..|ids| - 1], n);
      var before := DescribedAfter(ids[..|ids| - 1], n);
      DescribedStep(before.window, n, before.accepted, ids[|ids| - 1]);
    }
  }

  /** After every run treated alike, code and description treat the next identifier differently if and only if it is new
      and either below all accepted ones while those are fewer than `n`, or has at least `n` above it but fewer than the
      checker looks at. The code then accepts it and the description ignores it. */
  lemma DiffersExactly(ids: seq<nat>, n: nat, id: nat)
    requires 1 <= n && After(ids, n).accepted == DescribedAfter(ids, n).accepted
    ensures var accepted := After(ids, n).accepted;
            var above, count := |Greater(accepted, id)|, |accepted|;
            var ours, theirs := After(ids + [id], n).accepted, DescribedAfter(ids + [id], n).accepted;
            && (ours != theirs <==> id !in accepted && if count < n then 0 < count == above
                                                       else n <= above < Kept(count, n))
            && (ours != theirs ==> ours == accepted + [id] && theirs == accepted)
  {
    AcceptedExactly(ids, n, id);
    DescribedHolds(ids, n);
    var r := DescribedAfter(ids, n);
    assert (ids + [id])[..|ids|] == ids;
    DescribedStep(r.window, n, r.accepted, id);
    KeptBounds(|r.accepted|, n);
    NothingAcceptedTwice(ids, n);
    AboveBound(r.accepted, id);
  }

  lemma {:induction false} AboveBound(accepted: seq<nat>, id: nat)
    ensures |Greater(accepted, id)| <= |accepted|
  {
    if accepted != [] {
      var last, rest := accepted[|accepted| - 1], accepted[..|accepted| - 1];
      AboveBound(rest, id);
      assert accepted == rest + [last];
      SubsetSize(Greater(accepted, id), Greater(rest, id) + {last});
    }
  }

  /** The first way: while fewer than `n` are stored, the code accepts one that is lower than all. */
  lemma LowerIsAccepted(high: nat, low: nat, n: nat)
    requires low < high && 2 <= n
    ensures After([high, low], n).accepted == [high, low] && DescribedAfter([high, low], n).accepted == [high]
  {
    var none: seq<nat> := [];
    assert none + [high] == [high] && [high] + [low] == [high, low];
    NextAfter([], n, high);
    NextAfter([high], n, low);
    Appends([], n, high);
  }

  /** The second way: the code has not yet forgotten the lowest of three when two are to be stored. */
  lemma MoreIsKept(a: nat, x: nat, b: nat, c: nat)
    requires a < x < b < c
    ensures After([a, b, c, x], 2).accepted == [a, b, c, x] && DescribedAfter([a, b, c, x], 2).accepted == [a, b, c]
  {
    hide Check, Described, After, DescribedAfter;
    var none: seq<nat> := [];
    NothingOffered(2);
    assert none + [a] == [a] && [a] + [b] == [a, b] && [a, b] + [c] == [a, b, c] && [a, b, c] + [x] == [a, b, c, x];
    NextAfter([], 2, a);
    NextAfter([a], 2, b);
    NextAfter([a, b], 2, c);
    NextAfter([a, b, c], 2, x);
    Appends([], 2, a);
    Appends([a], 2, b);
    Appends([a, b], 2, c);
    assert [a, b, c][1..] == [b, c];
    Between(a, x, b, c);
  }

  lemma NothingOffered(n: nat)
    ensures After([], n) == Run([], []) && DescribedAfter([], n) == Run([], [])
  {
  }

  lemma NextAfter(ids: seq<nat>, n: nat, id: nat)
    ensures var r, c := After(ids, n), Check(After(ids, n).window, n, id);
            After(ids + [id], n) == Run(c.window, if c.verdict == Accepted then r.accepted + [id] else r.accepted)
    ensures var r, c := DescribedAfter(ids, n), Described(DescribedAfter(ids, n).window, n, id);
            DescribedAfter(ids + [id], n)
            == Run(c.window, if c.verdict == Accepted then r.accepted + [id] else r.accepted)
  {
    hide Check, Described;
    assert (ids + [id])[..|ids|] == ids;
  }

  lemma Between(a: nat, x: nat, b: nat, c: nat)
    requires a < x < b < c
    ensures Check([a, b, c], 2, x).verdict == Accepted && Described([b, c], 2, x).verdict != Accepted
  {
    LowerBoundUnique([a, b, c], x, 1);
  }

  /** An identifier above all is always accepted. */
  lemma Appends(stored: seq<nat>, n: nat, id: nat)
    requires (forall i :: 0 <= i < |stored| ==> stored[i] < id) && |stored| < 2 * n
    ensures Check(stored, n, id) == Checked(stored + [id], Accepted)
    ensures Described(stored, n, id)
            == Checked(if |stored| + 1 > n then (stored + [id])[1..] else stored + [id], Accepted)
  {
    LowerBoundUnique(stored, id, |stored|);
    assert stored[..|stored|] + [id] + stored[|stored|..] == stored + [id];
  }

  /** In particular: an identifier that is new and has fewer than `maxSize` accepted ones above it is accepted, as the
      description asks, and one that was accepted before is never accepted again. */
  lemma FreshIsAccepted(ids: seq<nat>, maxSize: nat, id: nat)
    requires 1 <= maxSize
    ensures var r := After(ids, maxSize);
            var verdict := After(ids + [id], maxSize).accepted;
            && (id in r.accepted ==> verdict == r.accepted)
            && (id !in r.accepted && |Greater(r.accepted, id)| < maxSize ==> verdict == r.accepted + [id])
  {
    AcceptedExactly(ids, maxSize, id);
    KeptBounds(|After(ids, maxSize).accepted|, maxSize);
  }
}
