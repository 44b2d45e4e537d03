/** The two passes over a client hello as objects, and the generation of the hello. */
module TlsInit {
  import opened Bytes
  import opened Streaming
  import opened TlsHello
  import opened TlsHelloTree
  import opened TlsHelloTheorems

  class TlsHelloCalcLength {
    var size: nat
    var scopeOffset: seq<nat>
    var error: bool

    function View(): Calc
      reads this
    {
      Calc(size, scopeOffset, error)
    }

    constructor ()
      ensures View() == CALC_START
    {
      size, scopeOffset, error := 0, [], false;
    }

    method DoOp(op: Op, ctx: Context)
      modifies this
      ensures View() == CalcOp(op, ctx, old(View()))
      decreases op, 0
    {
      if error { return; }
      match op {
        case Str(data) => size := size + |data|;
        case Random(n) => if n <= 0 || n > 2048 { error := true; } else { size := size + n; }
        case Zero(n) => if n <= 0 || n > 2048 { error := true; } else { size := size + n; }
        case Domain => size := size + |DomainOf(ctx)|;
        case Grease(seed) => if seed < 0 || seed >= |ctx.grease| { error := true; } else { size := size + 2; }
        case Key => size := size + 32;
        case MlKem768Key => size := size + 1184;
        case BeginScope =>
          size := size + 2;
          scopeOffset := scopeOffset + [size];
        case EndScope =>
          if scopeOffset == [] {
            error := true;
          } else {
            var begin := scopeOffset[|scopeOffset| - 1];
            scopeOffset := scopeOffset[..|scopeOffset| - 1];
            if size - begin >= 0x4000 { error := true; }
          }
        case Permutation(parts) => DoParts(parts, ctx);
        case Padding => if size < 513 { size := 517; }
      }
    }

    method DoOps(ops: seq<Op>, ctx: Context)
      modifies this
      ensures View() == CalcOps(ops, ctx, old(View()))
      decreases ops, 1
    {
      hide CalcOp;
      var i := 0;
      while i < |ops|
        invariant 0 <= i <= |ops|
        invariant CalcOps(ops, ctx, old(View())) == CalcOps(ops[i..], ctx, View())
      {
        assert ops[i..][0] == ops[i] && ops[i..][1..] == ops[i + 1..];
        DoOp(ops[i], ctx);
        i := i + 1;
      }
    }

    method DoParts(parts: seq<Part>, ctx: Context)
      modifies this
      ensures View() == CalcParts(parts, ctx, old(View()))
      decreases parts, 2
    {
      hide CalcOps;
      var i := 0;
      while i < |parts|
        invariant 0 <= i <= |parts|
        invariant CalcParts(parts, ctx, old(View())) == CalcParts(parts[i..], ctx, View())
      {
        assert parts[i..][0] == parts[i] && parts[i..][1..] == parts[i + 1..];
        DoOps(parts[i].ops, ctx);
        i := i + 1;
      }
    }
  }

  // ---------------------------------------------------------------------------------------------------------
  // Writing only goes forward
  // ---------------------------------------------------------------------------------------------------------

  lemma StoreOpGrows(op: Op, ctx: Context, st: Store)
    requires Fair(ctx)
    ensures |st.out| <= |StoreOp(op, ctx, st).out|
  {
    hide Fair, StoreParts, BigEndian;
  }

  lemma {:induction false} StoreGrows(ops: seq<Op>, ctx: Context, st: Store)
    requires Fair(ctx)
    ensures |st.out| <= |StoreOps(ops, ctx, st).out|
    decreases |ops|
  {
    hide StoreOp, Fair;
    if ops != [] {
      StoreOpGrows(ops[0], ctx, st);
      StoreGrows(ops[1..], ctx, StoreOp(ops[0], ctx, st));
    }
  }

  /** Operations that end well within a limit start well within it. */
  lemma FirstFits(ops: seq<Op>, ctx: Context, st: Store, limit: nat)
    requires Fair(ctx) && ops != [] && StoreOps(ops, ctx, st).ok && |StoreOps(ops, ctx, st).out| <= limit
    ensures StoreOp(ops[0], ctx, st).ok && |StoreOp(ops[0], ctx, st).out| <= limit
    ensures StoreOps(ops, ctx, st) == StoreOps(ops[1..], ctx, StoreOp(ops[0], ctx, st))
  {
    hide StoreOp, Fair;
    var mid := StoreOp(ops[0], ctx, st);
    if !mid.ok { StoreFailureStays(ops[1..], ctx, mid); }
    StoreGrows(ops[1..], ctx, mid);
  }

  /** Writes into a buffer of zeros from the front, leaving room for the length of every scope it opens. */
  class TlsHelloStore {
    const data: array<byte>
    var offset: nat
    var scopeOffset: seq<nat>
    var drawn: nat

    ghost predicate Valid()
      reads this, data
    {
      offset <= data.Length && forall i :: offset <= i < data.Length ==> data[i] == 0
    }

    ghost function View(): Store
      requires Valid()
      reads this, data
    {
      Store(data[..offset], scopeOffset, drawn, true)
    }

    constructor (data: array<byte>, drawn: nat)
      requires forall i :: 0 <= i < data.Length ==> data[i] == 0
      ensures this.data == data && Valid() && View() == Store([], [], drawn, true)
    {
      this.data, offset, scopeOffset, this.drawn := data, 0, [], drawn;
    }

    method Put(bytes: seq<byte>)
      requires Valid() && offset + |bytes| <= data.Length
      modifies `offset, data
      ensures Valid() && View() == Write(old(View()), bytes)
    {
      var i := 0;
      ghost var was := data[..offset];
      while i < |bytes|
        invariant 0 <= i <= |bytes| && offset == old(offset)
        invariant data[..offset] == was && data[offset..offset + i] == bytes[..i]
        invariant forall j :: offset + i <= j < data.Length ==> data[j] == 0
      {
        data[offset + i] := bytes[i];
        i := i + 1;
      }
      offset := offset + |bytes|;
      assert data[..offset] == was + bytes[..|bytes|];
    }

    method Begin()
      requires Valid() && offset + 2 <= data.Length
      modifies `offset, `scopeOffset
      ensures Valid() && View() == OpenScope(old(View()))
    {
      scopeOffset := scopeOffset + [offset];
      offset := offset + 2;
      assert data[..offset] == data[..offset - 2] + [0, 0];
    }

    method End()
      requires Valid() && CloseScope(View()).ok
      modifies `scopeOffset, data
      ensures Valid() && View() == CloseScope(old(View()))
    {
      var last := |scopeOffset| - 1;
      var begin := scopeOffset[last];
      ghost var out := data[..offset];
      scopeOffset := scopeOffset[..last];
      var size := offset - begin - 2;
      data[begin] := size / 256 % 256;
      data[begin + 1] := size % 256;
      assert data[..offset] == out[..begin] + BigEndian(size) + out[begin + 2..];
    }

    method DoOp(op: Op, ctx: Context)
      requires Valid() && Fair(ctx) && StoreOp(op, ctx, View()).ok && |StoreOp(op, ctx, View()).out| <= data.Length
      modifies this, data
      ensures Valid() && View() == StoreOp(op, ctx, old(View()))
      decreases op, 0
    {
      hide Zeros, BigEndian, MlKemBytes, DomainOf;
      match op {
        case Str(bytes) => Put(bytes);
        case Random(n) =>
          var bytes := ctx.random(drawn, n);
          Put(bytes);
          drawn := drawn + 1;
        case Zero(n) => Put(Zeros(n));
        case Domain => Put(DomainOf(ctx));
        case Grease(seed) => Put([ctx.grease[seed], ctx.grease[seed]]);
        case Key =>
          Put(ctx.key(drawn));
          drawn := drawn + 1;
        case MlKem768Key =>
          var packed, more := MlKemBytes(ctx, drawn), ctx.random(drawn + 1, 32);
          Put(packed);
          drawn := drawn + 1;
          Put(more);
          drawn := drawn + 1;
        case BeginScope => Begin();
        case EndScope => End();
        case Permutation(parts) =>
          var blocks, next := BuildParts(parts, ctx, drawn);
          var shuffled := ctx.shuffle(next, blocks);
          Put(Join(shuffled));
          drawn := next + 1;
        case Padding => DoPadding();
      }
    }

    method DoPadding()
      requires Valid() && |StorePadding(View()).out| <= data.Length
      modifies this, data
      ensures Valid() && View() == StorePadding(old(View()))
    {
      hide BigEndian, Zeros;
      if offset < 513 {
        var size := 513 - offset;
        CloseFills(Write(View(), [0x00, 0x15]), Zeros(size));
        Put([0x00, 0x15]);
        Begin();
        Put(Zeros(size));
        End();
      }
    }

    method DoOps(ops: seq<Op>, ctx: Context)
      requires Valid() && Fair(ctx) && StoreOps(ops, ctx, View()).ok && |StoreOps(ops, ctx, View()).out| <= data.Length
      modifies this, data
      ensures Valid() && View() == StoreOps(ops, ctx, old(View()))
      decreases ops, 1
    {
      hide Fair, StoreOp;
      var i := 0;
      while i < |ops|
        invariant 0 <= i <= |ops| && Valid()
        invariant StoreOps(ops, ctx, old(View())) == StoreOps(ops[i..], ctx, View())
      {
        assert ops[i..][0] == ops[i] && ops[i..][1..] == ops[i + 1..];
        FirstFits(ops[i..], ctx, View(), data.Length);
        DoOp(ops[i], ctx);
        i := i + 1;
      }
    }
  }

  /** Builds every part of a permutation in a buffer of its own. */
  method BuildParts(parts: seq<Part>, ctx: Context, drawn: nat) returns (blocks: seq<seq<byte>>, next: nat)
    requires Fair(ctx) && StoreParts(parts, ctx, drawn).2
    ensures StoreParts(parts, ctx, drawn) == (blocks, next, true)
    decreases parts, 2
  {
    hide Fair, StoreOps, CalcOps;
    blocks, next := [], drawn;
    assert blocks + StoreParts(parts, ctx, drawn).0 == StoreParts(parts, ctx, drawn).0 && parts[0..] == parts;
    var i := 0;
    while i < |parts|
      invariant 0 <= i <= |parts| && StoreParts(parts[i..], ctx, next).2
      invariant var (later, last, _) := StoreParts(parts[i..], ctx, next);
                StoreParts(parts, ctx, drawn) == (blocks + later, last, true)
    {
      assert parts[i..][0] == parts[i] && parts[i..][1..] == parts[i + 1..];
      var calcLength := new TlsHelloCalcLength();
      calcLength.DoOps(parts[i].ops, ctx);
      var buffer := new byte[calcLength.size](_ => 0);
      var storer := new TlsHelloStore(buffer, next);
      storer.DoOps(parts[i].ops, ctx);
      ghost var part := StoreOps(parts[i].ops, ctx, Store([], [], next, true));
      ghost var later := StoreParts(parts[i + 1..], ctx, part.drawn).0;
      assert blocks + ([part.out] + later) == blocks + [part.out] + later;
      blocks := blocks + [buffer[..storer.offset]];
      next := storer.drawn;
      i := i + 1;
    }
    assert blocks + [] == blocks;
  }

  /** Writes the hello and replaces the 32 bytes at offset 11 by a digest of it. */
  method GenerateHeader(ops: seq<Op>, ctx: Context, digest: seq<byte> -> seq<byte>) returns (hello: array<byte>)
    requires Fair(ctx) && Agreeable(ops, ctx) && Accepts(ops, ctx, CalcOps(ops, ctx, CALC_START).size)
    requires forall s :: |digest(s)| == 32
    ensures var out := StoreOps(ops, ctx, STORE_START).out;
            && |out| == CalcOps(ops, ctx, CALC_START).size >= 43
            && hello[..] == out[..11] + digest(out) + out[43..]
  {
    hide StoreOps, CalcOps, Agreeable, Fair;
    var calcLength := new TlsHelloCalcLength();
    calcLength.DoOps(ops, ctx);
    hello := new byte[calcLength.size](_ => 0);
    var storer := new TlsHelloStore(hello, 0);
    ghost var tree := PassesAgree(ops, ctx, calcLength.size);
    storer.DoOps(ops, ctx);
    ghost var out := hello[..];
    assert hello[..storer.offset] == hello[..];
    StoreDigest(hello, digest(hello[..]));
  }

  method StoreDigest(hello: array<byte>, hash: seq<byte>)
    requires |hash| == 32 && 43 <= hello.Length
    modifies hello
    ensures hello[..] == old(hello[..11]) + hash + old(hello[43..])
  {
    ghost var out := hello[..];
    var i := 0;
    while i < 32
      invariant 0 <= i <= 32 && hello.Length == |out|
      invariant hello[..] == out[..11] + hash[..i] + out[11 + i..]
    {
      hello[11 + i] := hash[i];
      i := i + 1;
    }
    assert hash[..32] == hash;
  }
}
