/** The description of a client hello as a list of operations, and what the two passes over it compute: the first its
    length, the second its bytes. */
module TlsHello {
  import opened Bytes
  import opened Streaming

  datatype Op = Str(data: seq<byte>) | Random(length: int) | Zero(length: int) | Domain | Grease(seed: int)
              | Key | MlKem768Key | BeginScope | EndScope | Permutation(parts: seq<Part>) | Padding

  datatype Part = Part(ops: seq<Op>)

  /** The values an operation may draw on. The random ones depend on a running number of draws; `words` feeds the
      generation of one ML-KEM key, and `shuffle` orders the parts of a permutation. */
  datatype Context = Context(grease: seq<byte>, domain: seq<byte>,
                             random: (nat, nat) -> seq<byte>, key: nat -> seq<byte>, words: (nat, nat) -> nat,
                             shuffle: (nat, seq<seq<byte>>) -> seq<seq<byte>>)

  ghost predicate Fair(ctx: Context)
  {
    && (forall k, n :: |ctx.random(k, n)| == n)
    && (forall k :: |ctx.key(k)| == 32)
    && (forall k, parts :: multiset(ctx.shuffle(k, parts)) == multiset(parts))
  }

  const MAX_DOMAIN_LENGTH := 182

  function DomainOf(ctx: Context): seq<byte>
  {
    if |ctx.domain| <= MAX_DOMAIN_LENGTH then ctx.domain else ctx.domain[..MAX_DOMAIN_LENGTH]
  }

  // ---------------------------------------------------------------------------------------------------------
  // The length pass
  // ---------------------------------------------------------------------------------------------------------

  /** `scopes` are the offsets at which the contents of the open scopes start. */
  datatype Calc = Calc(size: nat, scopes: seq<nat>, error: bool)

  const CALC_START := Calc(0, [], false)

  predicate LengthOk(n: int) { 0 < n <= 2048 }

  predicate SeedOk(ctx: Context, seed: int) { 0 <= seed < |ctx.grease| }

  function CalcOp(op: Op, ctx: Context, st: Calc): Calc
    decreases op, 0
  {
    if st.error then st
    else
      match op
      case Str(data) => st.(size := st.size + |data|)
      case Random(n) => if LengthOk(n) then st.(size := st.size + n) else st.(error := true)
      case Zero(n) => if LengthOk(n) then st.(size := st.size + n) else st.(error := true)
      case Domain => st.(size := st.size + |DomainOf(ctx)|)
      case Grease(seed) => if SeedOk(ctx, seed) then st.(size := st.size + 2) else st.(error := true)
      case Key => st.(size := st.size + 32)
      case MlKem768Key => st.(size := st.size + 1184)
      case BeginScope => st.(size := st.size + 2, scopes := st.scopes + [st.size + 2])
      case EndScope =>
        if st.scopes == [] then st.(error := true)
        else
          var popped := st.(scopes := st.scopes[..|st.scopes| - 1]);
          if st.size - st.scopes[|st.scopes| - 1] >= 0x4000 then popped.(error := true) else popped
      case Permutation(parts) => CalcParts(parts, ctx, st)
      case Padding => if st.size < 513 then st.(size := 517) else st
  }

  function CalcOps(ops: seq<Op>, ctx: Context, st: Calc): Calc
    decreases ops, 1
  {
    if ops == [] then st else CalcOps(ops[1..], ctx, CalcOp(ops[0], ctx, st))
  }

  function CalcParts(parts: seq<Part>, ctx: Context, st: Calc): Calc
    decreases parts, 2
  {
    if parts == [] then st else CalcParts(parts[1..], ctx, CalcOps(parts[0].ops, ctx, st))
  }

  /** The first pass accepts the operations and this is the length. */
  predicate Accepts(ops: seq<Op>, ctx: Context, length: nat)
  {
    var st := CalcOps(ops, ctx, CALC_START);
    !st.error && st.scopes == [] && st.size >= 43 && length == st.size
  }

  // ---------------------------------------------------------------------------------------------------------
  // The store pass
  // ---------------------------------------------------------------------------------------------------------

  /** What has been written, the offsets of the length fields of the open scopes, and the number of draws so far.
      `ok` is cleared by a failed check. */
  datatype Store = Store(out: seq<byte>, scopes: seq<nat>, drawn: nat, ok: bool)

  const STORE_START := Store([], [], 0, true)

  function BigEndian(n: nat): (b: seq<byte>)
    ensures |b| == 2
  {
    [n / 256 % 256, n % 256]
  }

  /** Two coefficients of 12 bits in three bytes. */
  function PackByte(a: nat, b: nat, part: nat): byte
    requires a < 3329 && b < 3329
  {
    if part == 0 then a % 256 else if part == 1 then a / 256 + b % 16 * 16 else b / 16
  }

  function MlKemBytes(ctx: Context, drawn: nat): (r: seq<byte>)
    ensures |r| == 1152
  {
    seq<byte>(1152, j requires 0 <= j < 1152 =>
          PackByte(ctx.words(drawn, j / 3 * 2) % 3329, ctx.words(drawn, j / 3 * 2 + 1) % 3329, j % 3))
  }

  function Write(st: Store, bytes: seq<byte>): Store
  {
    st.(out := st.out + bytes)
  }

  function Draw(st: Store): Store
  {
    st.(drawn := st.drawn + 1)
  }

  function OpenScope(st: Store): Store
  {
    st.(out := st.out + [0, 0], scopes := st.scopes + [|st.out|])
  }

  /** Puts the length of the last open scope into its field. */
  function CloseScope(st: Store): Store
  {
    if st.scopes == [] then st.(ok := false)
    else
      var begin := st.scopes[|st.scopes| - 1];
      var closed := st.(scopes := st.scopes[..|st.scopes| - 1]);
      if begin + 2 > |st.out| || |st.out| - begin - 2 >= 0x4000 then closed.(ok := false)
      else
        var size := BigEndian(|st.out| - begin - 2);
        closed.(out := st.out[..begin] + size + st.out[begin + 2..])
  }

  function StorePadding(st: Store): Store
  {
    var at := |st.out|;
    if at < 513 then CloseScope(Write(OpenScope(Write(st, [0x00, 0x15])), Zeros(513 - at))) else st
  }

  ghost function StoreOp(op: Op, ctx: Context, st: Store): Store
    requires Fair(ctx)
    decreases op, 0
  {
    if !st.ok then st
    else
      match op
      case Str(data) => Write(st, data)
      case Random(n) => if n < 0 then st.(ok := false) else Draw(Write(st, ctx.random(st.drawn, n)))
      case Zero(n) => if n < 0 then st.(ok := false) else Write(st, Zeros(n))
      case Domain => Write(st, DomainOf(ctx))
      case Grease(seed) =>
        if SeedOk(ctx, seed) then Write(st, [ctx.grease[seed], ctx.grease[seed]]) else st.(ok := false)
      case Key => Draw(Write(st, ctx.key(st.drawn)))
      case MlKem768Key =>
        var packed := Draw(Write(st, MlKemBytes(ctx, st.drawn)));
        Draw(Write(packed, ctx.random(packed.drawn, 32)))
      case BeginScope => OpenScope(st)
      case EndScope => CloseScope(st)
      case Permutation(parts) =>
        var (blocks, drawn, ok) := StoreParts(parts, ctx, st.drawn);
        if ok then st.(out := st.out + Join(ctx.shuffle(drawn, blocks)), drawn := drawn + 1) else st.(ok := false)
      case Padding => StorePadding(st)
  }

  ghost function StoreOps(ops: seq<Op>, ctx: Context, st: Store): Store
    requires Fair(ctx)
    decreases ops, 1
  {
    if ops == [] then st else StoreOps(ops[1..], ctx, StoreOp(ops[0], ctx, st))
  }

  /** Every part is built in a buffer of its own, whose length is found by a length pass over the part alone. */
  ghost function StoreParts(parts: seq<Part>, ctx: Context, drawn: nat): (seq<seq<byte>>, nat, bool)
    requires Fair(ctx)
    decreases parts, 2
  {
    if parts == [] then ([], drawn, true)
    else
      var part := StoreOps(parts[0].ops, ctx, Store([], [], drawn, true));
      if !part.ok || |part.out| != CalcOps(parts[0].ops, ctx, CALC_START).size then ([], part.drawn, false)
      else
        var (blocks, drawn', ok) := StoreParts(parts[1..], ctx, part.drawn);
        ([part.out] + blocks, drawn', ok)
  }

  // ---------------------------------------------------------------------------------------------------------
  // Going through lists
  // ---------------------------------------------------------------------------------------------------------

  lemma {:induction false} CalcAppend(a: seq<Op>, b: seq<Op>, ctx: Context, st: Calc)
    ensures CalcOps(a + b, ctx, st) == CalcOps(b, ctx, CalcOps(a, ctx, st))
    decreases |a|
  {
    hide CalcOp;
    if a == [] {
      assert a + b == b;
    } else {
      CalcAppend(a[1..], b, ctx, CalcOp(a[0], ctx, st));
      assert (a + b)[1..] == a[1..] + b;
    }
  }

  lemma {:induction false} StoreAppend(a: seq<Op>, b: seq<Op>, ctx: Context, st: Store)
    requires Fair(ctx)
    ensures StoreOps(a + b, ctx, st) == StoreOps(b, ctx, StoreOps(a, ctx, st))
    decreases |a|
  {
    hide StoreOp, Fair;
    if a == [] {
      assert a + b == b;
    } else {
      StoreAppend(a[1..], b, ctx, StoreOp(a[0], ctx, st));
      assert (a + b)[1..] == a[1..] + b;
    }
  }

  lemma {:induction false} CalcErrorStays(ops: seq<Op>, ctx: Context, st: Calc)
    requires st.error
    ensures CalcOps(ops, ctx, st) == st
    decreases |ops|
  {
    if ops != [] { CalcErrorStays(ops[1..], ctx, st); }
  }

  lemma {:induction false} CalcPartsErrorStays(parts: seq<Part>, ctx: Context, st: Calc)
    requires st.error
    ensures CalcParts(parts, ctx, st) == st
    decreases |parts|
  {
    if parts != [] {
      CalcErrorStays(parts[0].ops, ctx, st);
      CalcPartsErrorStays(parts[1..], ctx, st);
    }
  }
}
