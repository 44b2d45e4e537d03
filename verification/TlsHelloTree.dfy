/** The client hello as a tree of scopes, as a reference for both passes over the operations. */
module TlsHelloTree {
  import opened Bytes
  import opened Streaming
  import opened TlsHello

  type LeafOp = op: Op | !op.BeginScope? && !op.EndScope? && !op.Permutation? witness Domain

  datatype Node = Leaf(op: LeafOp) | Scope(inside: seq<Node>) | Mix(groups: seq<Group>)

  datatype Group = Group(nodes: seq<Node>)

  // ---------------------------------------------------------------------------------------------------------
  // The operations of a tree
  // ---------------------------------------------------------------------------------------------------------

  function FlattenNode(node: Node): seq<Op>
    decreases node, 0
  {
    match node
    case Leaf(op) => [op]
    case Scope(inside) => [BeginScope] + Flatten(inside) + [EndScope]
    case Mix(groups) => [Permutation(FlattenGroups(groups))]
  }

  function Flatten(nodes: seq<Node>): seq<Op>
    decreases nodes, 1
  {
    if nodes == [] then [] else FlattenNode(nodes[0]) + Flatten(nodes[1..])
  }

  function FlattenGroups(groups: seq<Group>): seq<Part>
    decreases groups, 1
  {
    if groups == [] then [] else [Part(Flatten(groups[0].nodes))] + FlattenGroups(groups[1..])
  }

  // ---------------------------------------------------------------------------------------------------------
  // Conditions on operations
  // ---------------------------------------------------------------------------------------------------------

  /** Run with `depth` open scopes, the list closes them all and never one that is not open. */
  predicate Nested(ops: seq<Op>, depth: nat)
  {
    if ops == [] then depth == 0
    else if ops[0].BeginScope? then Nested(ops[1..], depth + 1)
    else if ops[0].EndScope? then depth > 0 && Nested(ops[1..], depth - 1)
    else Nested(ops[1..], depth)
  }

  /** Every part of every permutation, at any depth, closes exactly the scopes it opens. */
  predicate PartsNested(ops: seq<Op>)
    decreases ops, 0
  {
    ops == [] || ((ops[0].Permutation? ==> AllNested(ops[0].parts)) && PartsNested(ops[1..]))
  }

  predicate AllNested(parts: seq<Part>)
    decreases parts, 1
  {
    parts == [] || (Nested(parts[0].ops, 0) && PartsNested(parts[0].ops) && AllNested(parts[1..]))
  }

  // ---------------------------------------------------------------------------------------------------------
  // The length of a tree
  // ---------------------------------------------------------------------------------------------------------

  function LeafLen(op: LeafOp, ctx: Context, at: nat): nat
  {
    match op
    case Str(data) => |data|
    case Random(n) => if n > 0 then n else 0
    case Zero(n) => if n > 0 then n else 0
    case Domain => |DomainOf(ctx)|
    case Grease(_) => 2
    case Key => 32
    case MlKem768Key => 1184
    case Padding => if at < 513 then 517 - at else 0
  }

  function NodeLen(node: Node, ctx: Context, at: nat): nat
    decreases node, 0
  {
    match node
    case Leaf(op) => LeafLen(op, ctx, at)
    case Scope(inside) => 2 + Len(inside, ctx, at + 2)
    case Mix(groups) => GroupsLen(groups, ctx, at)
  }

  function Len(nodes: seq<Node>, ctx: Context, at: nat): nat
    decreases nodes, 1
  {
    if nodes == [] then 0
    else
      var n := NodeLen(nodes[0], ctx, at);
      n + Len(nodes[1..], ctx, at + n)
  }

  function GroupsLen(groups: seq<Group>, ctx: Context, at: nat): nat
    decreases groups, 1
  {
    if groups == [] then 0
    else
      var n := Len(groups[0].nodes, ctx, at);
      n + GroupsLen(groups[1..], ctx, at + n)
  }

  /** Lengths and seeds are in range and the contents of every scope are shorter than 2^14 bytes. */
  predicate LeafOk(op: LeafOp, ctx: Context)
  {
    match op
    case Random(n) => LengthOk(n)
    case Zero(n) => LengthOk(n)
    case Grease(seed) => SeedOk(ctx, seed)
    case _ => true
  }

  predicate NodeOk(node: Node, ctx: Context, at: nat)
    decreases node, 0
  {
    match node
    case Leaf(op) => LeafOk(op, ctx)
    case Scope(inside) => AllOk(inside, ctx, at + 2) && Len(inside, ctx, at + 2) < 0x4000
    case Mix(groups) => GroupsOk(groups, ctx, at)
  }

  predicate AllOk(nodes: seq<Node>, ctx: Context, at: nat)
    decreases nodes, 1
  {
    nodes == [] || (NodeOk(nodes[0], ctx, at) && AllOk(nodes[1..], ctx, at + NodeLen(nodes[0], ctx, at)))
  }

  predicate GroupsOk(groups: seq<Group>, ctx: Context, at: nat)
    decreases groups, 1
  {
    groups == [] || (AllOk(groups[0].nodes, ctx, at) && GroupsOk(groups[1..], ctx, at + Len(groups[0].nodes, ctx, at)))
  }

  // ---------------------------------------------------------------------------------------------------------
  // The length pass computes the length of the tree
  // ---------------------------------------------------------------------------------------------------------

  ghost predicate CalcGives(r: Calc, st: Calc, ok: bool, len: nat)
  {
    (r.error <==> !ok) && (ok ==> r == st.(size := st.size + len))
  }

  lemma {:induction false} CalcNode(node: Node, ctx: Context, st: Calc)
    requires !st.error
    ensures CalcGives(CalcOps(FlattenNode(node), ctx, st), st, NodeOk(node, ctx, st.size), NodeLen(node, ctx, st.size))
    decreases node, 0
  {
    match node {
      case Leaf(op) =>
        assert FlattenNode(node)[1..] == [];
      case Scope(inside) =>
        var begun := CalcOp(BeginScope, ctx, st);
        var ops := Flatten(inside);
        assert FlattenNode(node) == [BeginScope] + (ops + [EndScope]);
        assert FlattenNode(node)[1..] == ops + [EndScope];
        CalcTree(inside, ctx, begun);
        CalcAppend(ops, [EndScope], ctx, begun);
        CalcClose(CalcOps(ops, ctx, begun), ctx, st, begun, Len(inside, ctx, st.size + 2));
      case Mix(groups) =>
        CalcGroups(groups, ctx, st);
        assert FlattenNode(node)[1..] == [];
    }
  }

  lemma CalcClose(inner: Calc, ctx: Context, st: Calc, begun: Calc, len: nat)
    requires !st.error && begun == CalcOp(BeginScope, ctx, st)
    requires !inner.error ==> inner == begun.(size := begun.size + len)
    ensures CalcGives(CalcOps([EndScope], ctx, inner), st, !inner.error && len < 0x4000, 2 + len)
  {
    CalcSingle(EndScope, ctx, inner);
    CalcBegin(ctx, st);
    if !inner.error {
      CalcEnd(ctx, inner);
      hide *;
      assert inner.scopes == st.scopes + [st.size + 2];
      assert inner.scopes[..|inner.scopes| - 1] == st.scopes;
    }
  }

  lemma CalcBegin(ctx: Context, st: Calc)
    requires !st.error
    ensures CalcOp(BeginScope, ctx, st) == Calc(st.size + 2, st.scopes + [st.size + 2], false)
  {
  }

  lemma CalcEnd(ctx: Context, st: Calc)
    requires !st.error && st.scopes != []
    ensures var last := |st.scopes| - 1;
            CalcOp(EndScope, ctx, st) == Calc(st.size, st.scopes[..last], st.size - st.scopes[last] >= 0x4000)
  {
  }

  lemma CalcSingle(op: Op, ctx: Context, st: Calc)
    ensures CalcOps([op], ctx, st) == CalcOp(op, ctx, st)
  {
    hide CalcOp;
    assert [op][1..] == [];
  }

  lemma {:induction false} CalcTree(nodes: seq<Node>, ctx: Context, st: Calc)
    requires !st.error
    ensures CalcGives(CalcOps(Flatten(nodes), ctx, st), st, AllOk(nodes, ctx, st.size), Len(nodes, ctx, st.size))
    decreases nodes, 1
  {
    hide CalcOp, NodeLen, NodeOk, FlattenNode;
    if nodes != [] {
      var first, later := FlattenNode(nodes[0]), Flatten(nodes[1..]);
      CalcAppend(first, later, ctx, st);
      CalcNode(nodes[0], ctx, st);
      var mid := CalcOps(first, ctx, st);
      if mid.error { CalcErrorStays(later, ctx, mid); } else { CalcTree(nodes[1..], ctx, mid); }
    }
  }

  lemma {:induction false} CalcGroups(groups: seq<Group>, ctx: Context, st: Calc)
    requires !st.error
    ensures CalcGives(CalcParts(FlattenGroups(groups), ctx, st), st, GroupsOk(groups, ctx, st.size),
                      GroupsLen(groups, ctx, st.size))
    decreases groups, 1
  {
    hide CalcOps;
    if groups != [] {
      var parts := FlattenGroups(groups);
      assert parts[0].ops == Flatten(groups[0].nodes) && parts[1..] == FlattenGroups(groups[1..]);
      CalcTree(groups[0].nodes, ctx, st);
      var mid := CalcOps(parts[0].ops, ctx, st);
      if mid.error { CalcPartsErrorStays(parts[1..], ctx, mid); } else { CalcGroups(groups[1..], ctx, mid); }
    }
  }

  // ---------------------------------------------------------------------------------------------------------
  // How the length depends on the offset
  // ---------------------------------------------------------------------------------------------------------

  /** The length without padding, whether there is padding, and the length in front of the first. */
  datatype Shape = Shape(plain: nat, padded: bool, lead: nat)

  function Then(a: Shape, b: Shape): Shape
  {
    Shape(a.plain + b.plain, a.padded || b.padded, if a.padded then a.lead else a.plain + b.lead)
  }

  function NodeShape(node: Node, ctx: Context): Shape
    decreases node, 0
  {
    match node
    case Leaf(op) => if op.Padding? then Shape(0, true, 0) else Shape(LeafLen(op, ctx, 0), false, 0)
    case Scope(inside) => Then(Shape(2, false, 0), ShapeOf(inside, ctx))
    case Mix(groups) => GroupsShape(groups, ctx)
  }

  function ShapeOf(nodes: seq<Node>, ctx: Context): Shape
    decreases nodes, 1
  {
    if nodes == [] then Shape(0, false, 0) else Then(NodeShape(nodes[0], ctx), ShapeOf(nodes[1..], ctx))
  }

  function GroupsShape(groups: seq<Group>, ctx: Context): Shape
    decreases groups, 1
  {
    if groups == [] then Shape(0, false, 0) else Then(ShapeOf(groups[0].nodes, ctx), GroupsShape(groups[1..], ctx))
  }

  function Pad(at: nat): nat
  {
    if at < 513 then 517 - at else 0
  }

  /** Only the first padding can add anything: behind it 513 bytes are reached. */
  function ShapeLen(sh: Shape, at: nat): nat
  {
    sh.plain + if sh.padded then Pad(at + sh.lead) else 0
  }

  lemma ThenLen(a: Shape, b: Shape, at: nat)
    requires a.padded ==> a.lead <= a.plain
    ensures ShapeLen(Then(a, b), at) == ShapeLen(a, at) + ShapeLen(b, at + ShapeLen(a, at))
  {
  }

  /** The length of a tree at any offset, and the first padding lies inside it. */
  lemma {:induction false} NodeClosed(node: Node, ctx: Context, at: nat)
    ensures NodeLen(node, ctx, at) == ShapeLen(NodeShape(node, ctx), at)
    ensures NodeShape(node, ctx).padded ==> NodeShape(node, ctx).lead <= NodeShape(node, ctx).plain
    decreases node, 0
  {
    match node {
      case Leaf(op) =>
      case Scope(inside) =>
        Closed(inside, ctx, at + 2);
        ThenLen(Shape(2, false, 0), ShapeOf(inside, ctx), at);
      case Mix(groups) =>
        GroupsClosed(groups, ctx, at);
    }
  }

  lemma {:induction false} Closed(nodes: seq<Node>, ctx: Context, at: nat)
    ensures Len(nodes, ctx, at) == ShapeLen(ShapeOf(nodes, ctx), at)
    ensures ShapeOf(nodes, ctx).padded ==> ShapeOf(nodes, ctx).lead <= ShapeOf(nodes, ctx).plain
    decreases nodes, 1
  {
    hide NodeLen, NodeShape;
    if nodes != [] {
      NodeClosed(nodes[0], ctx, at);
      Closed(nodes[1..], ctx, at + NodeLen(nodes[0], ctx, at));
      ThenLen(NodeShape(nodes[0], ctx), ShapeOf(nodes[1..], ctx), at);
    }
  }

  lemma {:induction false} GroupsClosed(groups: seq<Group>, ctx: Context, at: nat)
    ensures GroupsLen(groups, ctx, at) == ShapeLen(GroupsShape(groups, ctx), at)
    ensures GroupsShape(groups, ctx).padded ==> GroupsShape(groups, ctx).lead <= GroupsShape(groups, ctx).plain
    decreases groups, 1
  {
    hide Len, ShapeOf;
    if groups != [] {
      Closed(groups[0].nodes, ctx, at);
      GroupsClosed(groups[1..], ctx, at + Len(groups[0].nodes, ctx, at));
      ThenLen(ShapeOf(groups[0].nodes, ctx), GroupsShape(groups[1..], ctx), at);
    }
  }

  /** At the second offset nothing is longer than at the first. */
  predicate NoLonger(sh: Shape, a: nat, b: nat)
  {
    sh.padded ==> a <= b || (a + sh.lead >= 513 && b + sh.lead >= 513)
  }

  lemma NoLongerThen(x: Shape, y: Shape, a: nat, b: nat)
    requires NoLonger(Then(x, y), a, b) && (x.padded ==> x.lead <= x.plain)
    ensures NoLonger(x, a, b) && NoLonger(y, a + ShapeLen(x, a), b + ShapeLen(x, b))
  {
  }

  /** What is acceptable at one offset is acceptable at another where nothing is longer. */
  lemma {:induction false} NodeMoved(node: Node, ctx: Context, a: nat, b: nat)
    requires NodeOk(node, ctx, a) && NoLonger(NodeShape(node, ctx), a, b)
    ensures NodeOk(node, ctx, b)
    decreases node, 0
  {
    match node {
      case Leaf(op) =>
      case Scope(inside) =>
        NoLongerThen(Shape(2, false, 0), ShapeOf(inside, ctx), a, b);
        Moved(inside, ctx, a + 2, b + 2);
        Closed(inside, ctx, a + 2);
        Closed(inside, ctx, b + 2);
      case Mix(groups) =>
        GroupsMoved(groups, ctx, a, b);
    }
  }

  lemma {:induction false} Moved(nodes: seq<Node>, ctx: Context, a: nat, b: nat)
    requires AllOk(nodes, ctx, a) && NoLonger(ShapeOf(nodes, ctx), a, b)
    ensures AllOk(nodes, ctx, b)
    decreases nodes, 1
  {
    hide NodeLen, NodeOk, NodeShape, NoLonger;
    if nodes != [] {
      NodeClosed(nodes[0], ctx, a);
      NodeClosed(nodes[0], ctx, b);
      NoLongerThen(NodeShape(nodes[0], ctx), ShapeOf(nodes[1..], ctx), a, b);
      NodeMoved(nodes[0], ctx, a, b);
      Moved(nodes[1..], ctx, a + NodeLen(nodes[0], ctx, a), b + NodeLen(nodes[0], ctx, b));
    }
  }

  lemma {:induction false} GroupsMoved(groups: seq<Group>, ctx: Context, a: nat, b: nat)
    requires GroupsOk(groups, ctx, a) && NoLonger(GroupsShape(groups, ctx), a, b)
    ensures GroupsOk(groups, ctx, b)
    decreases groups, 1
  {
    hide Len, AllOk, ShapeOf, NoLonger;
    if groups != [] {
      var nodes := groups[0].nodes;
      Closed(nodes, ctx, a);
      Closed(nodes, ctx, b);
      NoLongerThen(ShapeOf(nodes, ctx), GroupsShape(groups[1..], ctx), a, b);
      Moved(nodes, ctx, a, b);
      GroupsMoved(groups[1..], ctx, a + Len(nodes, ctx, a), b + Len(nodes, ctx, b));
    }
  }

  // ---------------------------------------------------------------------------------------------------------
  // Padding in the parts of a permutation
  // ---------------------------------------------------------------------------------------------------------

  /** The part has no padding, or it starts the buffer it is counted in, or 513 bytes precede its first padding. */
  predicate FitsAt(nodes: seq<Node>, ctx: Context, at: nat)
  {
    var sh := ShapeOf(nodes, ctx);
    sh.padded ==> at == 0 || sh.lead >= 513
  }

  /** Those are the parts that are as long there as on their own; no part is longer there. */
  lemma FitsExactly(nodes: seq<Node>, ctx: Context, at: nat)
    ensures Len(nodes, ctx, at) <= Len(nodes, ctx, 0)
    ensures Len(nodes, ctx, at) == Len(nodes, ctx, 0) <==> FitsAt(nodes, ctx, at)
    ensures Len(nodes, ctx, at) == Len(nodes, ctx, 0) || at + Len(nodes, ctx, at) >= 513
  {
    hide Len, ShapeOf;
    Closed(nodes, ctx, at);
    Closed(nodes, ctx, 0);
  }

  /** Every part of every permutation fits where the length pass counts it. */
  predicate NodeSteady(node: Node, ctx: Context, at: nat)
    decreases node, 0
  {
    match node
    case Leaf(_) => true
    case Scope(inside) => Steady(inside, ctx, at + 2)
    case Mix(groups) => GroupsSteady(groups, ctx, at)
  }

  predicate Steady(nodes: seq<Node>, ctx: Context, at: nat)
    decreases nodes, 1
  {
    nodes == [] || (NodeSteady(nodes[0], ctx, at) && Steady(nodes[1..], ctx, at + NodeLen(nodes[0], ctx, at)))
  }

  predicate GroupsSteady(groups: seq<Group>, ctx: Context, at: nat)
    decreases groups, 1
  {
    groups == []
    || (&& FitsAt(groups[0].nodes, ctx, at) && Steady(groups[0].nodes, ctx, 0)
        && GroupsSteady(groups[1..], ctx, at + Len(groups[0].nodes, ctx, at)))
  }

  /** A part that fits and is acceptable there is acceptable on its own. */
  lemma FitsOk(nodes: seq<Node>, ctx: Context, at: nat)
    requires FitsAt(nodes, ctx, at) && AllOk(nodes, ctx, at)
    ensures AllOk(nodes, ctx, 0) && Len(nodes, ctx, at) == Len(nodes, ctx, 0)
  {
    FitsExactly(nodes, ctx, at);
    hide AllOk, Len, ShapeOf;
    Moved(nodes, ctx, at, 0);
  }

  // ---------------------------------------------------------------------------------------------------------
  // The bytes of a tree
  // ---------------------------------------------------------------------------------------------------------

  datatype Rendering = Rendering(bytes: seq<byte>, drawn: nat)

  function LeafBytes(op: LeafOp, ctx: Context, at: nat, drawn: nat): Rendering
  {
    match op
    case Str(data) => Rendering(data, drawn)
    case Random(n) => Rendering(if n < 0 then [] else ctx.random(drawn, n), drawn + 1)
    case Zero(n) => Rendering(if n < 0 then [] else Zeros(n), drawn)
    case Domain => Rendering(DomainOf(ctx), drawn)
    case Grease(seed) => Rendering(if SeedOk(ctx, seed) then [ctx.grease[seed], ctx.grease[seed]] else [], drawn)
    case Key => Rendering(ctx.key(drawn), drawn + 1)
    case MlKem768Key => Rendering(MlKemBytes(ctx, drawn) + ctx.random(drawn + 1, 32), drawn + 2)
    case Padding =>
      Rendering(if at < 513 then [0x00, 0x15] + BigEndian(513 - at) + Zeros(513 - at) else [], drawn)
  }

  /** A scope is the big-endian length of its contents and its contents; a permutation is its parts in some order. */
  function NodeBytes(node: Node, ctx: Context, at: nat, drawn: nat): Rendering
    decreases node, 0
  {
    match node
    case Leaf(op) => LeafBytes(op, ctx, at, drawn)
    case Scope(inside) =>
      var r := Render(inside, ctx, at + 2, drawn);
      Rendering(BigEndian(|r.bytes|) + r.bytes, r.drawn)
    case Mix(groups) =>
      var (blocks, drawn') := GroupsBytes(groups, ctx, drawn);
      Rendering(Join(ctx.shuffle(drawn', blocks)), drawn' + 1)
  }

  function Render(nodes: seq<Node>, ctx: Context, at: nat, drawn: nat): Rendering
    decreases nodes, 1
  {
    if nodes == [] then Rendering([], drawn)
    else
      var first := NodeBytes(nodes[0], ctx, at, drawn);
      var later := Render(nodes[1..], ctx, at + |first.bytes|, first.drawn);
      Rendering(first.bytes + later.bytes, later.drawn)
  }

  function GroupsBytes(groups: seq<Group>, ctx: Context, drawn: nat): (seq<seq<byte>>, nat)
    decreases groups, 1
  {
    if groups == [] then ([], drawn)
    else
      var first := Render(groups[0].nodes, ctx, 0, drawn);
      var (blocks, drawn') := GroupsBytes(groups[1..], ctx, first.drawn);
      ([first.bytes] + blocks, drawn')
  }

  // ---------------------------------------------------------------------------------------------------------
  // The bytes have the length of the tree
  // ---------------------------------------------------------------------------------------------------------

  function Total(parts: seq<seq<byte>>): nat
  {
    if parts == [] then 0 else |parts[0]| + Total(parts[1..])
  }

  lemma {:induction false} JoinLength(parts: seq<seq<byte>>)
    ensures |Join(parts)| == Total(parts)
  {
    if parts != [] { JoinLength(parts[1..]); }
  }

  lemma {:induction false} TotalAppend(a: seq<seq<byte>>, b: seq<seq<byte>>)
    ensures Total(a + b) == Total(a) + Total(b)
    decreases |a|
  {
    if a == [] {
      assert a + b == b;
    } else {
      TotalAppend(a[1..], b);
      assert (a + b)[1..] == a[1..] + b;
    }
  }

  /** Reordering parts does not change their total length. */
  lemma {:induction false} TotalPermuted(a: seq<seq<byte>>, b: seq<seq<byte>>)
    requires multiset(a) == multiset(b)
    ensures Total(a) == Total(b)
    decreases |a|
  {
    assert |a| == |multiset(a)| == |multiset(b)| == |b|;
    if a != [] {
      assert a[0] in multiset(b);
      var i :| 0 <= i < |b| && b[i] == a[0];
      var rest := b[..i] + b[i + 1..];
      RestPermuted(a, b, i);
      Without(b, i);
      TotalPermuted(a[1..], rest);
    }
  }

  lemma RestPermuted(a: seq<seq<byte>>, b: seq<seq<byte>>, i: nat)
    requires multiset(a) == multiset(b) && a != [] && i < |b| && b[i] == a[0]
    ensures multiset(a[1..]) == multiset(b[..i] + b[i + 1..])
  {
    Without(b, i);
    Without(a, 0);
    assert a[..0] + a[1..] == a[1..];
  }

  lemma Without(b: seq<seq<byte>>, i: nat)
    requires i < |b|
    ensures multiset(b[..i] + b[i + 1..]) == multiset(b) - multiset{b[i]}
    ensures Total(b) == |b[i]| + Total(b[..i] + b[i + 1..])
  {
    assert b == b[..i] + ([b[i]] + b[i + 1..]);
    TotalAppend(b[..i], [b[i]] + b[i + 1..]);
    TotalAppend(b[..i], b[i + 1..]);
    assert ([b[i]] + b[i + 1..])[1..] == b[i + 1..];
  }

  lemma LeafLength(op: LeafOp, ctx: Context, at: nat, drawn: nat)
    requires Fair(ctx) && LeafOk(op, ctx)
    ensures |LeafBytes(op, ctx, at, drawn).bytes| == LeafLen(op, ctx, at)
  {
  }

  lemma {:induction false} NodeLength(node: Node, ctx: Context, at: nat, drawn: nat)
    requires Fair(ctx) && NodeOk(node, ctx, at) && NodeSteady(node, ctx, at)
    ensures |NodeBytes(node, ctx, at, drawn).bytes| == NodeLen(node, ctx, at)
    decreases node, 0
  {
    match node {
      case Leaf(op) =>
        LeafLength(op, ctx, at, drawn);
      case Scope(inside) =>
        RenderLength(inside, ctx, at + 2, drawn);
      case Mix(groups) =>
        GroupsLength(groups, ctx, at, drawn);
        var (blocks, drawn') := GroupsBytes(groups, ctx, drawn);
        var shuffled := ctx.shuffle(drawn', blocks);
        assert multiset(shuffled) == multiset(blocks);
        TotalPermuted(shuffled, blocks);
        JoinLength(shuffled);
    }
  }

  lemma {:induction false} RenderLength(nodes: seq<Node>, ctx: Context, at: nat, drawn: nat)
    requires Fair(ctx) && AllOk(nodes, ctx, at) && Steady(nodes, ctx, at)
    ensures |Render(nodes, ctx, at, drawn).bytes| == Len(nodes, ctx, at)
    decreases nodes, 1
  {
    hide Fair, NodeBytes, NodeLen, NodeOk, NodeSteady;
    if nodes != [] {
      NodeLength(nodes[0], ctx, at, drawn);
      var first := NodeBytes(nodes[0], ctx, at, drawn);
      RenderLength(nodes[1..], ctx, at + |first.bytes|, first.drawn);
    }
  }

  lemma {:induction false} GroupsLength(groups: seq<Group>, ctx: Context, at: nat, drawn: nat)
    requires Fair(ctx) && GroupsOk(groups, ctx, at) && GroupsSteady(groups, ctx, at)
    ensures Total(GroupsBytes(groups, ctx, drawn).0) == GroupsLen(groups, ctx, at)
    decreases groups, 1
  {
    hide Fair, Render, Len, AllOk, Steady, FitsAt;
    if groups != [] {
      var nodes := groups[0].nodes;
      FitsOk(nodes, ctx, at);
      RenderLength(nodes, ctx, 0, drawn);
      var first := Render(nodes, ctx, 0, drawn);
      GroupsLength(groups[1..], ctx, at + Len(nodes, ctx, at), first.drawn);
      var (blocks, drawn') := GroupsBytes(groups[1..], ctx, first.drawn);
      assert ([first.bytes] + blocks)[1..] == blocks;
    }
  }

  // ---------------------------------------------------------------------------------------------------------
  // The store pass writes the bytes of the tree
  // ---------------------------------------------------------------------------------------------------------

  function Extended(st: Store, r: Rendering): Store
  {
    st.(out := st.out + r.bytes, drawn := r.drawn)
  }

  lemma StoreSingle(op: Op, ctx: Context, st: Store)
    requires Fair(ctx)
    ensures StoreOps([op], ctx, st) == StoreOp(op, ctx, st)
  {
    hide StoreOp, Fair;
    assert [op][1..] == [];
  }

  /** Closing a scope right after its contents puts their length in front of them. */
  lemma CloseFills(st: Store, content: seq<byte>)
    requires |content| < 0x4000
    ensures CloseScope(Write(OpenScope(st), content)) == st.(out := st.out + (BigEndian(|content|) + content))
  {
    hide BigEndian;
    var open := Write(OpenScope(st), content);
    assert open.out == st.out + [0, 0] + content;
    assert open.scopes[..|open.scopes| - 1] == st.scopes;
    assert open.out[..|st.out|] == st.out && open.out[|st.out| + 2..] == content;
    assert st.out + BigEndian(|content|) + content == st.out + (BigEndian(|content|) + content);
  }

  lemma StoreLeaf(op: LeafOp, ctx: Context, st: Store)
    requires Fair(ctx) && st.ok && LeafOk(op, ctx)
    ensures StoreOp(op, ctx, st) == Extended(st, LeafBytes(op, ctx, |st.out|, st.drawn))
  {
    hide BigEndian, MlKemBytes, Fair, CloseScope, DomainOf, Zeros;
    match op {
      case MlKem768Key =>
        var a, b := MlKemBytes(ctx, st.drawn), ctx.random(st.drawn + 1, 32);
        assert st.out + a + b == st.out + (a + b);
      case Padding =>
        var at := |st.out|;
        if at < 513 {
          var start := Write(st, [0x00, 0x15]);
          CloseFills(start, Zeros(513 - at));
          assert start.out + (BigEndian(513 - at) + Zeros(513 - at))
                 == st.out + ([0x00, 0x15] + BigEndian(513 - at) + Zeros(513 - at));
        } else {
          assert st.out + [] == st.out;
        }
      case _ =>
    }
  }

  lemma {:induction false} StoreNode(node: Node, ctx: Context, st: Store)
    requires Fair(ctx) && st.ok && NodeOk(node, ctx, |st.out|) && NodeSteady(node, ctx, |st.out|)
    ensures StoreOps(FlattenNode(node), ctx, st) == Extended(st, NodeBytes(node, ctx, |st.out|, st.drawn))
    decreases node, 0
  {
    hide Fair, StoreOps;
    match node {
      case Leaf(op) =>
        StoreSingle(op, ctx, st);
        StoreLeaf(op, ctx, st);
      case Scope(inside) =>
        StoreScope(inside, ctx, st);
      case Mix(groups) =>
        StoreSingle(Permutation(FlattenGroups(groups)), ctx, st);
        StoreGroups(groups, ctx, |st.out|, st.drawn);
    }
  }

  lemma {:induction false} StoreScope(inside: seq<Node>, ctx: Context, st: Store)
    requires Fair(ctx) && st.ok && NodeOk(Scope(inside), ctx, |st.out|)
    requires NodeSteady(Scope(inside), ctx, |st.out|)
    ensures StoreOps(FlattenNode(Scope(inside)), ctx, st)
            == Extended(st, NodeBytes(Scope(inside), ctx, |st.out|, st.drawn))
    decreases inside, 2
  {
    hide Fair, StoreOps, Render, BigEndian;
    var ops := Flatten(inside);
    assert FlattenNode(Scope(inside)) == [BeginScope] + (ops + [EndScope]);
    StoreAppend([BeginScope], ops + [EndScope], ctx, st);
    StoreSingle(BeginScope, ctx, st);
    var begun := OpenScope(st);
    StoreAppend(ops, [EndScope], ctx, begun);
    StoreTree(inside, ctx, begun);
    RenderLength(inside, ctx, |st.out| + 2, st.drawn);
    var r := Render(inside, ctx, |st.out| + 2, st.drawn);
    StoreSingle(EndScope, ctx, Extended(begun, r));
    CloseFills(st.(drawn := r.drawn), r.bytes);
  }

  lemma {:induction false} StoreTree(nodes: seq<Node>, ctx: Context, st: Store)
    requires Fair(ctx) && st.ok && AllOk(nodes, ctx, |st.out|) && Steady(nodes, ctx, |st.out|)
    ensures StoreOps(Flatten(nodes), ctx, st) == Extended(st, Render(nodes, ctx, |st.out|, st.drawn))
    decreases nodes, 1
  {
    hide Fair, NodeBytes, NodeLen, NodeOk, FlattenNode, NodeSteady, Render, StoreOps;
    if nodes == [] {
      StoreNothing(ctx, st);
    } else {
      var first, later := FlattenNode(nodes[0]), Flatten(nodes[1..]);
      StoreAppend(first, later, ctx, st);
      StoreNode(nodes[0], ctx, st);
      NodeLength(nodes[0], ctx, |st.out|, st.drawn);
      var r := NodeBytes(nodes[0], ctx, |st.out|, st.drawn);
      var mid := Extended(st, r);
      StoreTree(nodes[1..], ctx, mid);
      RenderStep(nodes, ctx, |st.out|, st.drawn);
      hide AllOk, Steady, Flatten, Len;
      ExtendedTwice(st, r, Render(nodes[1..], ctx, |mid.out|, mid.drawn));
    }
  }

  lemma StoreNothing(ctx: Context, st: Store)
    requires Fair(ctx)
    ensures StoreOps([], ctx, st) == Extended(st, Render([], ctx, |st.out|, st.drawn))
  {
    assert st.out + [] == st.out;
  }

  lemma ExtendedTwice(st: Store, r: Rendering, r': Rendering)
    ensures Extended(Extended(st, r), r') == Extended(st, Rendering(r.bytes + r'.bytes, r'.drawn))
  {
    assert st.out + r.bytes + r'.bytes == st.out + (r.bytes + r'.bytes);
  }

  lemma RenderStep(nodes: seq<Node>, ctx: Context, at: nat, drawn: nat)
    requires nodes != []
    ensures var first := NodeBytes(nodes[0], ctx, at, drawn);
            var later := Render(nodes[1..], ctx, at + |first.bytes|, first.drawn);
            Render(nodes, ctx, at, drawn) == Rendering(first.bytes + later.bytes, later.drawn)
  {
    hide NodeBytes;
  }

  lemma {:induction false} StoreGroups(groups: seq<Group>, ctx: Context, at: nat, drawn: nat)
    requires Fair(ctx) && GroupsOk(groups, ctx, at) && GroupsSteady(groups, ctx, at)
    ensures var (blocks, drawn') := GroupsBytes(groups, ctx, drawn);
            StoreParts(FlattenGroups(groups), ctx, drawn) == (blocks, drawn', true)
    decreases groups, 1
  {
    hide Fair, StoreOps, CalcOps, Render, Len, AllOk, Steady, FitsAt;
    if groups != [] {
      var parts := FlattenGroups(groups);
      var nodes := groups[0].nodes;
      assert parts[0].ops == Flatten(nodes) && parts[1..] == FlattenGroups(groups[1..]);
      FitsOk(nodes, ctx, at);
      var start := Store([], [], drawn, true);
      StoreTree(nodes, ctx, start);
      RenderLength(nodes, ctx, 0, drawn);
      CalcTree(nodes, ctx, CALC_START);
      var r := Render(nodes, ctx, 0, drawn);
      assert [] + r.bytes == r.bytes;
      StoreGroups(groups[1..], ctx, at + Len(nodes, ctx, at), r.drawn);
    }
  }
}
