/** Reading items off a byte stream that arrives in pieces. */
module Streaming {
  import opened Bytes

  /** What the bytes at hand amount to: not yet an item, with the number of bytes to wait for; an item and the bytes it
      takes; or garbage. */
  datatype Step<T> = More(need: nat) | Item(item: T, used: nat) | Bad

  ghost predicate StableAt<T(!new)>(p: seq<byte> -> Step<T>, s: seq<byte>, t: seq<byte>)
  {
    && (p(s).Item? ==> 0 < p(s).used <= |s| && p(s + t) == p(s))
    && (p(s).Bad? ==> p(s + t).Bad?)
    && (p(s).More? ==> |s| < p(s).need)
    && (p(s).More? && |s + t| < p(s).need ==> p(s + t).More? && p(s).need <= p(s + t).need)
  }

  /** More bytes never change an answer, and fewer than the number asked for never give one. */
  ghost predicate Stable<T(!new)>(p: seq<byte> -> Step<T>)
  {
    forall s, t :: StableAt(p, s, t)
  }

  datatype Progress<T> = Progress(items: seq<T>, rest: seq<byte>, failed: bool)

  ghost function Drain<T(!new)>(p: seq<byte> -> Step<T>, s: seq<byte>): Progress<T>
    requires Stable(p)
    decreases |s|
  {
    match p(s)
    case More(_) => Progress([], s, false)
    case Bad => Progress([], s, true)
    case Item(item, used) =>
      assert StableAt(p, s, []);
      var later := Drain(p, s[used..]);
      Progress([item] + later.items, later.rest, later.failed)
  }

  ghost function After<T(!new)>(items: seq<T>, later: Progress<T>): Progress<T>
  {
    Progress(items + later.items, later.rest, later.failed)
  }

  lemma DrainItem<T(!new)>(p: seq<byte> -> Step<T>, s: seq<byte>, done: seq<T>)
    requires Stable(p) && p(s).Item?
    ensures 0 < p(s).used <= |s|
    ensures After(done, Drain(p, s)) == After(done + [p(s).item], Drain(p, s[p(s).used..]))
  {
    assert StableAt(p, s, []);
    var later := Drain(p, s[p(s).used..]);
    assert done + ([p(s).item] + later.items) == done + [p(s).item] + later.items;
  }

  lemma DrainEnd<T(!new)>(p: seq<byte> -> Step<T>, s: seq<byte>, done: seq<T>)
    requires Stable(p) && !p(s).Item?
    ensures After(done, Drain(p, s)) == Progress(done, s, p(s).Bad?)
  {
    assert done + [] == done;
  }

  /** One piece arrives. After garbage nothing is read any more. */
  ghost function Feed<T(!new)>(p: seq<byte> -> Step<T>, st: Progress<T>, chunk: seq<byte>): Progress<T>
    requires Stable(p)
  {
    if st.failed then Progress(st.items, st.rest + chunk, true) else After(st.items, Drain(p, st.rest + chunk))
  }

  ghost function FeedAll<T(!new)>(p: seq<byte> -> Step<T>, chunks: seq<seq<byte>>): Progress<T>
    requires Stable(p)
  {
    if chunks == [] then Progress([], [], false)
    else Feed(p, FeedAll(p, chunks[..|chunks| - 1]), chunks[|chunks| - 1])
  }

  function Join<T>(parts: seq<seq<T>>): seq<T>
  {
    if parts == [] then [] else parts[0] + Join(parts[1..])
  }

  lemma {:induction false} JoinLast<T>(parts: seq<seq<T>>, last: seq<T>)
    ensures Join(parts + [last]) == Join(parts) + last
  {
    if parts == [] {
      assert parts + [last] == [last] && last + [] == last;
    } else {
      JoinLast(parts[1..], last);
      assert (parts + [last])[1..] == parts[1..] + [last];
      assert parts[0] + (Join(parts[1..]) + last) == parts[0] + Join(parts[1..]) + last;
    }
  }

  /** Reading what is there and going on when more has come is reading everything at once. */
  lemma {:induction false} DrainMore<T(!new)>(p: seq<byte> -> Step<T>, s: seq<byte>, t: seq<byte>)
    requires Stable(p)
    ensures Drain(p, s + t) == Feed(p, Drain(p, s), t)
    decreases |s|
  {
    assert StableAt(p, s, t);
    match p(s) {
      case More(_) =>
        assert [] + Drain(p, s + t).items == Drain(p, s + t).items;
      case Bad =>
      case Item(item, used) =>
        assert StableAt(p, s, []);
        DrainMore(p, s[used..], t);
        assert (s + t)[used..] == s[used..] + t;
        FeedLater(p, item, Drain(p, s[used..]), t);
    }
  }

  lemma FeedLater<T(!new)>(p: seq<byte> -> Step<T>, item: T, st: Progress<T>, t: seq<byte>)
    requires Stable(p)
    ensures Feed(p, After([item], st), t) == After([item], Feed(p, st, t))
  {
    if !st.failed {
      var more := Drain(p, st.rest + t).items;
      assert [item] + (st.items + more) == [item] + st.items + more;
    }
  }

  /** However a stream is cut into pieces, the same items come out in the same order. */
  lemma {:induction false} ChunkIndependent<T(!new)>(p: seq<byte> -> Step<T>, chunks: seq<seq<byte>>)
    requires Stable(p) && p([]).More?
    ensures FeedAll(p, chunks) == Drain(p, Join(chunks))
  {
    if chunks == [] {
    } else {
      var before, last := chunks[..|chunks| - 1], chunks[|chunks| - 1];
      ChunkIndependent(p, before);
      JoinLast(before, last);
      assert before + [last] == chunks;
      DrainMore(p, Join(before), last);
    }
  }

  /** A stream made of whole items is read item by item. */
  lemma {:induction false} DrainItems<T(!new)>(p: seq<byte> -> Step<T>, encoded: seq<seq<byte>>, items: seq<T>)
    requires Stable(p) && p([]).More? && |encoded| == |items|
    requires forall i :: 0 <= i < |items| ==> p(encoded[i]) == Item(items[i], |encoded[i]|)
    ensures Drain(p, Join(encoded)) == Progress(items, [], false)
  {
    if items != [] {
      var first, later := encoded[0], Join(encoded[1..]);
      assert StableAt(p, first, later);
      assert p(first + later) == Item(items[0], |first|);
      assert (first + later)[|first|..] == later;
      DrainItems(p, encoded[1..], items[1..]);
      assert [items[0]] + items[1..] == items;
    }
  }
}
