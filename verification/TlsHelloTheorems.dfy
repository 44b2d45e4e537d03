/** The two passes over a client hello agree. */
module TlsHelloTheorems {
  import opened Bytes
  import opened Streaming
  import opened TlsHello
  import opened TlsHelloTree

  // ---------------------------------------------------------------------------------------------------------
  // Finding the tree
  // ---------------------------------------------------------------------------------------------------------

  /** The open scopes while a list is read, outermost first, each with the nodes found in it so far. */
  function Push(stack: seq<Group>, node: Node): seq<Group>
    requires stack != []
  {
    var last := |stack| - 1;
    stack[..last] + [Group(stack[last].nodes + [node])]
  }

  function Parse(ops: seq<Op>, stack: seq<Group>): seq<Node>
    requires stack != [] && Nested(ops, |stack| - 1) && PartsNested(ops)
    decreases ops, 0
  {
    if ops == [] then stack[0].nodes
    else
      match ops[0]
      case BeginScope => Parse(ops[1..], stack + [Group([])])
      case EndScope =>
        var last := |stack| - 1;
        Parse(ops[1..], Push(stack[..last], Scope(stack[last].nodes)))
      case Permutation(parts) => Parse(ops[1..], Push(stack, Mix(ParseParts(parts))))
      case _ => Parse(ops[1..], Push(stack, Leaf(ops[0])))
  }

  function ParseParts(parts: seq<Part>): seq<Group>
    requires AllNested(parts)
    decreases parts, 1
  {
    if parts == [] then [] else [Group(Parse(parts[0].ops, [Group([])]))] + ParseParts(parts[1..])
  }

  function StackOps(stack: seq<Group>): seq<Op>
    requires stack != []
  {
    var last := |stack| - 1;
    if last == 0 then Flatten(stack[0].nodes) else StackOps(stack[..last]) + [BeginScope] + Flatten(stack[last].nodes)
  }

  lemma {:induction false} FlattenAppend(a: seq<Node>, b: seq<Node>)
    ensures Flatten(a + b) == Flatten(a) + Flatten(b)
    decreases |a|
  {
    hide FlattenNode;
    if a == [] {
      assert a + b == b;
    } else {
      FlattenAppend(a[1..], b);
      assert (a + b)[1..] == a[1..] + b;
      assert FlattenNode(a[0]) + (Flatten(a[1..]) + Flatten(b)) == FlattenNode(a[0]) + Flatten(a[1..]) + Flatten(b);
    }
  }

  lemma FlattenSingle(node: Node)
    ensures Flatten([node]) == FlattenNode(node)
  {
    hide FlattenNode;
    assert [node][1..] == [] && FlattenNode(node) + [] == FlattenNode(node);
  }

  lemma PushOps(stack: seq<Group>, node: Node)
    requires stack != []
    ensures StackOps(Push(stack, node)) == StackOps(stack) + FlattenNode(node)
  {
    hide FlattenNode, Flatten;
    var last := |stack| - 1;
    var old', new' := stack[last].nodes, stack[last].nodes + [node];
    FlattenAppend(old', [node]);
    FlattenSingle(node);
    var pushed := Push(stack, node);
    assert pushed[..last] == stack[..last] && pushed[last].nodes == new';
    if last > 0 {
      var below := StackOps(stack[..last]) + [BeginScope];
      assert below + (Flatten(old') + FlattenNode(node)) == below + Flatten(old') + FlattenNode(node);
    }
  }

  lemma {:induction false} ParseKeeps(ops: seq<Op>, stack: seq<Group>)
    requires stack != [] && Nested(ops, |stack| - 1) && PartsNested(ops)
    ensures Flatten(Parse(ops, stack)) == StackOps(stack) + ops
    decreases ops, 0
  {
    hide Flatten, FlattenNode, StackOps, Push;
    if ops == [] {
      StackBottom(stack);
      assert StackOps(stack) + [] == StackOps(stack);
    } else {
      var op, rest, last := ops[0], ops[1..], |stack| - 1;
      NestedStep(ops, last);
      hide Nested, PartsNested;
      match op {
        case BeginScope =>
          ParseKeeps(rest, stack + [Group([])]);
          BeginOps(stack, ops);
        case EndScope =>
          var node := Scope(stack[last].nodes);
          PushSize(stack[..last], node);
          ParseKeeps(rest, Push(stack[..last], node));
          EndOps(stack, ops);
        case Permutation(parts) =>
          ParsePartsKeeps(parts);
          var node := Mix(ParseParts(parts));
          PushSize(stack, node);
          ParseKeeps(rest, Push(stack, node));
          PlainOps(stack, node, ops);
        case _ =>
          PushSize(stack, Leaf(op));
          ParseKeeps(rest, Push(stack, Leaf(op)));
          PlainOps(stack, Leaf(op), ops);
      }
    }
  }

  lemma BeginOps(stack: seq<Group>, ops: seq<Op>)
    requires stack != [] && ops != [] && ops[0] == BeginScope
    ensures StackOps(stack + [Group([])]) + ops[1..] == StackOps(stack) + ops
  {
    hide StackOps;
    StackBegin(stack);
  }

  lemma EndOps(stack: seq<Group>, ops: seq<Op>)
    requires |stack| > 1 && ops != [] && ops[0] == EndScope
    ensures var last := |stack| - 1;
            StackOps(Push(stack[..last], Scope(stack[last].nodes))) + ops[1..] == StackOps(stack) + ops
  {
    hide StackOps, FlattenNode;
    PushOps(stack[..|stack| - 1], Scope(stack[|stack| - 1].nodes));
    StackEnd(stack);
  }

  lemma PlainOps(stack: seq<Group>, node: Node, ops: seq<Op>)
    requires stack != [] && ops != [] && !node.Scope?
    requires ops[0] == if node.Leaf? then node.op else Permutation(FlattenGroups(node.groups))
    ensures StackOps(Push(stack, node)) + ops[1..] == StackOps(stack) + ops
  {
    NodeOps(node);
    hide StackOps, FlattenNode;
    PushOps(stack, node);
  }

  lemma NestedStep(ops: seq<Op>, depth: nat)
    requires ops != [] && Nested(ops, depth) && PartsNested(ops)
    ensures PartsNested(ops[1..]) && (ops[0].Permutation? ==> AllNested(ops[0].parts))
    ensures match ops[0] {
              case BeginScope => Nested(ops[1..], depth + 1)
              case EndScope => depth > 0 && Nested(ops[1..], depth - 1)
              case _ => Nested(ops[1..], depth)
            }
  {
  }

  lemma PushSize(stack: seq<Group>, node: Node)
    requires stack != []
    ensures |Push(stack, node)| == |stack|
  {
  }

  lemma NodeOps(node: Node)
    requires !node.Scope?
    ensures FlattenNode(node) == [if node.Leaf? then node.op else Permutation(FlattenGroups(node.groups))]
  {
  }

  lemma StackBottom(stack: seq<Group>)
    requires |stack| == 1
    ensures StackOps(stack) == Flatten(stack[0].nodes)
  {
  }

  lemma StackBegin(stack: seq<Group>)
    requires stack != []
    ensures StackOps(stack + [Group([])]) == StackOps(stack) + [BeginScope]
  {
    var more := stack + [Group([])];
    assert more[..|stack|] == stack;
    assert StackOps(stack) + [BeginScope] + [] == StackOps(stack) + [BeginScope];
  }

  lemma StackEnd(stack: seq<Group>)
    requires |stack| > 1
    ensures var last := |stack| - 1;
            StackOps(stack[..last]) + FlattenNode(Scope(stack[last].nodes)) == StackOps(stack) + [EndScope]
  {
    var last := |stack| - 1;
    var below, inside := StackOps(stack[..last]), Flatten(stack[last].nodes);
    assert below + ([BeginScope] + inside + [EndScope]) == below + [BeginScope] + inside + [EndScope];
  }

  lemma {:induction false} ParsePartsKeeps(parts: seq<Part>)
    requires AllNested(parts)
    ensures FlattenGroups(ParseParts(parts)) == parts
    decreases parts, 1
  {
    if parts != [] {
      ParseKeeps(parts[0].ops, [Group([])]);
      assert StackOps([Group([])]) == [];
      assert [] + parts[0].ops == parts[0].ops;
      ParsePartsKeeps(parts[1..]);
      assert ParseParts(parts)[1..] == ParseParts(parts[1..]);
      assert parts == [parts[0]] + parts[1..];
    }
  }

  // ---------------------------------------------------------------------------------------------------------
  // An accepted list is nested
  // ---------------------------------------------------------------------------------------------------------

  /** A nested list run with `k` scopes to close closes exactly those. */
  lemma {:induction false} CalcNested(ops: seq<Op>, ctx: Context, st: Calc, k: nat)
    requires Nested(ops, k) && PartsNested(ops) && k <= |st.scopes| && !CalcOps(ops, ctx, st).error
    ensures CalcOps(ops, ctx, st).scopes == st.scopes[..|st.scopes| - k]
    decreases ops, 1
  {
    if ops == [] {
      assert st.scopes[..|st.scopes|] == st.scopes;
    } else {
      var mid := CalcOp(ops[0], ctx, st);
      if mid.error { CalcErrorStays(ops[1..], ctx, mid); }
      NoErrorBefore(ops[0], ctx, st);
      match ops[0] {
        case BeginScope =>
          CalcNested(ops[1..], ctx, mid, k + 1);
          assert mid.scopes[..|mid.scopes| - (k + 1)] == st.scopes[..|st.scopes| - k];
        case EndScope =>
          CalcNested(ops[1..], ctx, mid, k - 1);
          assert mid.scopes[..|mid.scopes| - (k - 1)] == st.scopes[..|st.scopes| - k];
        case Permutation(parts) =>
          CalcPartsNested(parts, ctx, st);
          CalcNested(ops[1..], ctx, mid, k);
        case _ =>
          CalcNested(ops[1..], ctx, mid, k);
      }
    }
  }

  lemma NoErrorBefore(op: Op, ctx: Context, st: Calc)
    requires !CalcOp(op, ctx, st).error
    ensures !st.error
  {
  }

  lemma {:induction false} CalcPartsNested(parts: seq<Part>, ctx: Context, st: Calc)
    requires AllNested(parts) && !CalcParts(parts, ctx, st).error
    ensures CalcParts(parts, ctx, st).scopes == st.scopes
    decreases parts, 2
  {
    if parts != [] {
      var mid := CalcOps(parts[0].ops, ctx, st);
      if mid.error { CalcPartsErrorStays(parts[1..], ctx, mid); }
      CalcNested(parts[0].ops, ctx, st, 0);
      CalcPartsNested(parts[1..], ctx, mid);
      assert st.scopes[..|st.scopes|] == st.scopes;
    }
  }

  lemma {:induction false} AcceptedNested(ops: seq<Op>, ctx: Context, st: Calc)
    requires PartsNested(ops) && !CalcOps(ops, ctx, st).error && CalcOps(ops, ctx, st).scopes == []
    ensures Nested(ops, |st.scopes|)
    decreases |ops|
  {
    if ops != [] {
      var mid := CalcOp(ops[0], ctx, st);
      if mid.error { CalcErrorStays(ops[1..], ctx, mid); }
      AcceptedNested(ops[1..], ctx, mid);
      if ops[0].Permutation? { CalcPartsNested(ops[0].parts, ctx, st); }
    }
  }

  // ---------------------------------------------------------------------------------------------------------
  // Why the parts must be nested
  // ---------------------------------------------------------------------------------------------------------

  /** Scopes opened minus scopes closed, with and without the parts of permutations. */
  function DeepNet(ops: seq<Op>): int
    decreases ops, 0
  {
    if ops == [] then 0
    else Effect(ops[0]) + (if ops[0].Permutation? then DeepNetOfParts(ops[0].parts) else 0) + DeepNet(ops[1..])
  }

  function DeepNetOfParts(parts: seq<Part>): int
    decreases parts, 1
  {
    if parts == [] then 0 else DeepNet(parts[0].ops) + DeepNetOfParts(parts[1..])
  }

  function Effect(op: Op): int
  {
    if op.BeginScope? then 1 else if op.EndScope? then -1 else 0
  }

  function Net(ops: seq<Op>): int
  {
    if ops == [] then 0 else Effect(ops[0]) + Net(ops[1..])
  }

  lemma {:induction false} CalcCounts(ops: seq<Op>, ctx: Context, st: Calc)
    requires !CalcOps(ops, ctx, st).error
    ensures |CalcOps(ops, ctx, st).scopes| == |st.scopes| + DeepNet(ops)
    decreases ops, 1
  {
    if ops != [] {
      var mid := CalcOp(ops[0], ctx, st);
      if mid.error { CalcErrorStays(ops[1..], ctx, mid); }
      NoErrorBefore(ops[0], ctx, st);
      if ops[0].Permutation? { CalcPartsCount(ops[0].parts, ctx, st); }
      CalcCounts(ops[1..], ctx, mid);
    }
  }

  lemma {:induction false} CalcPartsCount(parts: seq<Part>, ctx: Context, st: Calc)
    requires !CalcParts(parts, ctx, st).error
    ensures |CalcParts(parts, ctx, st).scopes| == |st.scopes| + DeepNetOfParts(parts)
    decreases parts, 2
  {
    if parts != [] {
      var mid := CalcOps(parts[0].ops, ctx, st);
      if mid.error { CalcPartsErrorStays(parts[1..], ctx, mid); }
      CalcCounts(parts[0].ops, ctx, st);
      CalcPartsCount(parts[1..], ctx, mid);
    }
  }

  /** The list never closes a scope that is not open, and neither does any part. */
  predicate Sane(ops: seq<Op>, depth: nat)
    decreases ops, 0
  {
    ops == []
    || (&& depth + Effect(ops[0]) >= 0
        && (ops[0].Permutation? ==> SaneParts(ops[0].parts))
        && Sane(ops[1..], depth + Effect(ops[0])))
  }

  predicate SaneParts(parts: seq<Part>)
    decreases parts, 1
  {
    parts == [] || (Sane(parts[0].ops, 0) && SaneParts(parts[1..]))
  }

  lemma {:induction false} StoreFailureStays(ops: seq<Op>, ctx: Context, st: Store)
    requires Fair(ctx) && !st.ok
    ensures StoreOps(ops, ctx, st) == st
    decreases |ops|
  {
    if ops != [] { StoreFailureStays(ops[1..], ctx, st); }
  }

  lemma {:induction false} SurvivesSane(ops: seq<Op>, ctx: Context, st: Store)
    requires Fair(ctx) && StoreOps(ops, ctx, st).ok
    ensures Sane(ops, |st.scopes|)
    decreases ops, 1
  {
    if ops != [] {
      hide Fair;
      var mid := StoreOp(ops[0], ctx, st);
      if !mid.ok { StoreFailureStays(ops[1..], ctx, mid); }
      SurvivesSane(ops[1..], ctx, mid);
      StoreDepth(ops[0], ctx, st);
      if ops[0].Permutation? { SurvivesSaneParts(ops[0].parts, ctx, st.drawn); }
    }
  }

  lemma StoreDepth(op: Op, ctx: Context, st: Store)
    requires Fair(ctx) && StoreOp(op, ctx, st).ok
    ensures |StoreOp(op, ctx, st).scopes| == |st.scopes| + Effect(op) && |st.scopes| + Effect(op) >= 0 && st.ok
    ensures op.Permutation? ==> StoreParts(op.parts, ctx, st.drawn).2
  {
    hide Fair, StoreParts, BigEndian;
  }

  lemma {:induction false} SurvivesSaneParts(parts: seq<Part>, ctx: Context, drawn: nat)
    requires Fair(ctx) && StoreParts(parts, ctx, drawn).2
    ensures SaneParts(parts)
    decreases parts, 2
  {
    hide Fair, StoreOps, CalcOps;
    if parts != [] {
      var start := Store([], [], drawn, true);
      var part := StoreOps(parts[0].ops, ctx, start);
      SurvivesSane(parts[0].ops, ctx, start);
      SurvivesSaneParts(parts[1..], ctx, part.drawn);
    }
  }

  lemma {:induction false} SaneNet(ops: seq<Op>, depth: nat)
    requires Sane(ops, depth)
    ensures depth + Net(ops) >= 0 && DeepNet(ops) >= Net(ops)
    ensures depth + Net(ops) == 0 ==> Nested(ops, depth)
    ensures DeepNet(ops) == Net(ops) ==> PartsNested(ops)
    decreases ops, 1
  {
    if ops != [] {
      SaneNet(ops[1..], depth + Effect(ops[0]));
      if ops[0].Permutation? { SanePartsNet(ops[0].parts); }
    }
  }

  lemma {:induction false} SanePartsNet(parts: seq<Part>)
    requires SaneParts(parts)
    ensures DeepNetOfParts(parts) >= 0
    ensures DeepNetOfParts(parts) == 0 ==> AllNested(parts)
    decreases parts, 2
  {
    if parts != [] {
      SaneNet(parts[0].ops, 0);
      SanePartsNet(parts[1..]);
    }
  }

  /** If the length pass accepts the operations and the store pass gets through them, then every part is nested. */
  lemma NestingNecessary(ops: seq<Op>, ctx: Context, length: nat)
    requires Fair(ctx) && Accepts(ops, ctx, length) && StoreOps(ops, ctx, STORE_START).ok
    ensures Nested(ops, 0) && PartsNested(ops)
  {
    hide Fair, CalcOps, StoreOps;
    CalcCounts(ops, ctx, CALC_START);
    SurvivesSane(ops, ctx, STORE_START);
    SaneNet(ops, 0);
  }

  // ---------------------------------------------------------------------------------------------------------
  // What the store pass writes if it gets through
  // ---------------------------------------------------------------------------------------------------------

  /** Lengths and seeds are in range, wherever the node is. */
  predicate NodeLeavesOk(node: Node, ctx: Context)
    decreases node, 0
  {
    match node
    case Leaf(op) => LeafOk(op, ctx)
    case Scope(inside) => LeavesOk(inside, ctx)
    case Mix(groups) => GroupsLeavesOk(groups, ctx)
  }

  predicate LeavesOk(nodes: seq<Node>, ctx: Context)
    decreases nodes, 1
  {
    nodes == [] || (NodeLeavesOk(nodes[0], ctx) && LeavesOk(nodes[1..], ctx))
  }

  predicate GroupsLeavesOk(groups: seq<Group>, ctx: Context)
    decreases groups, 1
  {
    groups == [] || (LeavesOk(groups[0].nodes, ctx) && GroupsLeavesOk(groups[1..], ctx))
  }

  lemma {:induction false} NodeHasLeavesOk(node: Node, ctx: Context, at: nat)
    requires NodeOk(node, ctx, at)
    ensures NodeLeavesOk(node, ctx)
    decreases node, 0
  {
    match node {
      case Leaf(op) =>
      case Scope(inside) => HasLeavesOk(inside, ctx, at + 2);
      case Mix(groups) => GroupsHaveLeavesOk(groups, ctx, at);
    }
  }

  lemma {:induction false} HasLeavesOk(nodes: seq<Node>, ctx: Context, at: nat)
    requires AllOk(nodes, ctx, at)
    ensures LeavesOk(nodes, ctx)
    decreases nodes, 1
  {
    if nodes != [] {
      NodeHasLeavesOk(nodes[0], ctx, at);
      HasLeavesOk(nodes[1..], ctx, at + NodeLen(nodes[0], ctx, at));
    }
  }

  lemma {:induction false} GroupsHaveLeavesOk(groups: seq<Group>, ctx: Context, at: nat)
    requires GroupsOk(groups, ctx, at)
    ensures GroupsLeavesOk(groups, ctx)
    decreases groups, 1
  {
    if groups != [] {
      HasLeavesOk(groups[0].nodes, ctx, at);
      GroupsHaveLeavesOk(groups[1..], ctx, at + Len(groups[0].nodes, ctx, at));
    }
  }

  /** The offsets of the two passes: the same until the store pass has written too much, which is behind byte 513. */
  predicate Level(written: nat, counted: nat)
  {
    written == counted || written >= counted >= 513
  }

  /** The length pass accepts too; at least as much is written as counted, and exactly that if and only if all parts
      fit. */
  ghost predicate Meets(written: int, at: nat, ok: bool, len: nat, steady: bool)
  {
    ok && written >= len && (written == len <==> steady) && (written == len || at + len >= 513)
  }

  lemma StartedOk(ops: seq<Op>, ctx: Context, st: Store)
    requires Fair(ctx) && StoreOps(ops, ctx, st).ok
    ensures st.ok
  {
    if !st.ok { StoreFailureStays(ops, ctx, st); }
  }

  lemma {:induction false} NodeMeets(node: Node, ctx: Context, st: Store, at: nat)
    requires Fair(ctx) && NodeLeavesOk(node, ctx) && Level(|st.out|, at) && StoreOps(FlattenNode(node), ctx, st).ok
    ensures var done := StoreOps(FlattenNode(node), ctx, st);
            && done.scopes == st.scopes
            && Meets(|done.out| - |st.out|, at, NodeOk(node, ctx, at), NodeLen(node, ctx, at),
                     NodeSteady(node, ctx, at))
    decreases node, 0
  {
    hide Fair, StoreOps;
    StartedOk(FlattenNode(node), ctx, st);
    match node {
      case Leaf(op) =>
        StoreSingle(op, ctx, st);
        StoreLeaf(op, ctx, st);
        hide LeafBytes;
        LeafLength(op, ctx, |st.out|, st.drawn);
      case Scope(inside) =>
        ScopeMeets(inside, ctx, st, at);
      case Mix(groups) =>
        var parts := FlattenGroups(groups);
        StoreSingle(Permutation(parts), ctx, st);
        StoreDepth(Permutation(parts), ctx, st);
        GroupsMeet(groups, ctx, st.drawn, at);
        PermutationStep(parts, ctx, st);
        var (blocks, drawn, _) := StoreParts(parts, ctx, st.drawn);
        ShuffledLength(ctx, drawn, blocks);
    }
  }

  lemma ShuffledLength(ctx: Context, drawn: nat, blocks: seq<seq<byte>>)
    requires Fair(ctx)
    ensures |Join(ctx.shuffle(drawn, blocks))| == Total(blocks)
  {
    var shuffled := ctx.shuffle(drawn, blocks);
    assert multiset(shuffled) == multiset(blocks);
    TotalPermuted(shuffled, blocks);
    JoinLength(shuffled);
  }

  lemma {:induction false} ScopeMeets(inside: seq<Node>, ctx: Context, st: Store, at: nat)
    requires Fair(ctx) && LeavesOk(inside, ctx) && Level(|st.out|, at) && st.ok
    requires StoreOps(FlattenNode(Scope(inside)), ctx, st).ok
    ensures var done, node := StoreOps(FlattenNode(Scope(inside)), ctx, st), Scope(inside);
            && done.scopes == st.scopes
            && Meets(|done.out| - |st.out|, at, NodeOk(node, ctx, at), NodeLen(node, ctx, at),
                     NodeSteady(node, ctx, at))
    decreases inside, 2
  {
    hide Fair, StoreOps, BigEndian;
    var ops := Flatten(inside);
    assert FlattenNode(Scope(inside)) == [BeginScope] + (ops + [EndScope]);
    StoreAppend([BeginScope], ops + [EndScope], ctx, st);
    StoreSingle(BeginScope, ctx, st);
    var begun := OpenScope(st);
    StoreAppend(ops, [EndScope], ctx, begun);
    var inner := StoreOps(ops, ctx, begun);
    StoreSingle(EndScope, ctx, inner);
    StartedOk([EndScope], ctx, inner);
    TreeMeets(inside, ctx, begun, at + 2);
    CloseLength(st, inner);
  }

  lemma CloseLength(st: Store, inner: Store)
    requires inner.scopes == st.scopes + [|st.out|] && CloseScope(inner).ok && |inner.out| >= |st.out| + 2
    ensures inner.ok && CloseScope(inner).scopes == st.scopes && |CloseScope(inner).out| == |inner.out|
    ensures |inner.out| - |st.out| - 2 < 0x4000
  {
    assert inner.scopes[..|inner.scopes| - 1] == st.scopes;
  }

  lemma {:induction false} TreeMeets(nodes: seq<Node>, ctx: Context, st: Store, at: nat)
    requires Fair(ctx) && LeavesOk(nodes, ctx) && Level(|st.out|, at) && StoreOps(Flatten(nodes), ctx, st).ok
    ensures var done := StoreOps(Flatten(nodes), ctx, st);
            && done.scopes == st.scopes
            && Meets(|done.out| - |st.out|, at, AllOk(nodes, ctx, at), Len(nodes, ctx, at), Steady(nodes, ctx, at))
    decreases nodes, 1
  {
    hide Fair, NodeLen, NodeOk, FlattenNode, NodeSteady, NodeLeavesOk;
    if nodes != [] {
      var first, later := FlattenNode(nodes[0]), Flatten(nodes[1..]);
      StoreAppend(first, later, ctx, st);
      hide StoreOps;
      var mid := StoreOps(first, ctx, st);
      StartedOk(later, ctx, mid);
      NodeMeets(nodes[0], ctx, st, at);
      TreeMeets(nodes[1..], ctx, mid, at + NodeLen(nodes[0], ctx, at));
    }
  }

  lemma {:induction false} GroupsMeet(groups: seq<Group>, ctx: Context, drawn: nat, at: nat)
    requires Fair(ctx) && GroupsLeavesOk(groups, ctx) && StoreParts(FlattenGroups(groups), ctx, drawn).2
    ensures Meets(Total(StoreParts(FlattenGroups(groups), ctx, drawn).0), at,
                  GroupsOk(groups, ctx, at), GroupsLen(groups, ctx, at), GroupsSteady(groups, ctx, at))
    decreases groups, 1
  {
    hide Fair, StoreOps, CalcOps, Len, AllOk, Steady, FitsAt, LeavesOk;
    if groups != [] {
      var parts, nodes := FlattenGroups(groups), groups[0].nodes;
      assert parts[0].ops == Flatten(nodes) && parts[1..] == FlattenGroups(groups[1..]);
      var start := Store([], [], drawn, true);
      var part := StoreOps(parts[0].ops, ctx, start);
      TreeMeets(nodes, ctx, start, 0);
      CalcTree(nodes, ctx, CALC_START);
      FitsExactly(nodes, ctx, at);
      Moved(nodes, ctx, 0, at);
      GroupsMeet(groups[1..], ctx, part.drawn, at + Len(nodes, ctx, at));
      var blocks := StoreParts(parts[1..], ctx, part.drawn).0;
      assert ([part.out] + blocks)[1..] == blocks;
    }
  }

  // ---------------------------------------------------------------------------------------------------------
  // The agreement
  // ---------------------------------------------------------------------------------------------------------

  /** Every part closes exactly the scopes it opens, and fits where the length pass counts it. */
  predicate Agreeable(ops: seq<Op>, ctx: Context)
  {
    Nested(ops, 0) && PartsNested(ops) && Steady(Parse(ops, [Group([])]), ctx, 0)
  }

  /** The operations come from a tree of scopes, and the store pass writes the bytes of that tree, in which every
      scope is preceded by its big-endian length: as many bytes as the length pass found, with no check failing, for
      every choice of random values and every order of the parts. */
  lemma PassesAgree(ops: seq<Op>, ctx: Context, length: nat) returns (tree: seq<Node>)
    requires Fair(ctx) && Agreeable(ops, ctx) && Accepts(ops, ctx, length)
    ensures Flatten(tree) == ops
    ensures var done := StoreOps(ops, ctx, STORE_START);
            && done.ok && done.scopes == [] && |done.out| == length
            && done.out == Render(tree, ctx, 0, 0).bytes
  {
    hide Fair, CalcOps, StoreOps, Render, Len, AllOk, Parse, Flatten, Nested, PartsNested, Steady;
    tree := TreeOf(ops);
    CalcTree(tree, ctx, CALC_START);
    StoreTree(tree, ctx, STORE_START);
    RenderLength(tree, ctx, 0, 0);
    assert [] + Render(tree, ctx, 0, 0).bytes == Render(tree, ctx, 0, 0).bytes;
  }

  lemma TreeOf(ops: seq<Op>) returns (tree: seq<Node>)
    requires Nested(ops, 0) && PartsNested(ops)
    ensures tree == Parse(ops, [Group([])]) && Flatten(tree) == ops
  {
    hide Nested, PartsNested, Flatten, Parse;
    tree := Parse(ops, [Group([])]);
    ParseKeeps(ops, [Group([])]);
    NoStack();
    assert [] + ops == ops;
  }

  lemma NoStack()
    ensures StackOps([Group([])]) == []
  {
  }

  /** For every accepted list: the store pass gets through and fills the buffer of the length pass exactly if and only
      if every part is nested and fits. If a part does not fit, more is written than there is room for. */
  lemma PassesAgreeExactly(ops: seq<Op>, ctx: Context, length: nat)
    requires Fair(ctx) && Accepts(ops, ctx, length)
    ensures var done := StoreOps(ops, ctx, STORE_START);
            && (done.ok && |done.out| == length <==> Agreeable(ops, ctx))
            && (done.ok ==> |done.out| >= length)
  {
    hide Fair, CalcOps, StoreOps, Len, AllOk, Parse, Flatten, Nested, PartsNested, Steady, LeavesOk;
    var done := StoreOps(ops, ctx, STORE_START);
    if Agreeable(ops, ctx) {
      var tree := PassesAgree(ops, ctx, length);
    }
    if done.ok {
      NestingNecessary(ops, ctx, length);
      var tree := TreeOf(ops);
      CalcTree(tree, ctx, CALC_START);
      HasLeavesOk(tree, ctx, 0);
      TreeMeets(tree, ctx, STORE_START, 0);
    }
  }

  // ---------------------------------------------------------------------------------------------------------
  // Parts without padding
  // ---------------------------------------------------------------------------------------------------------

  predicate NoPadding(ops: seq<Op>)
    decreases ops, 0
  {
    ops == [] || (!ops[0].Padding? && (ops[0].Permutation? ==> NoPaddingInParts(ops[0].parts)) && NoPadding(ops[1..]))
  }

  predicate NoPaddingInParts(parts: seq<Part>)
    decreases parts, 1
  {
    parts == [] || (NoPadding(parts[0].ops) && NoPaddingInParts(parts[1..]))
  }

  predicate PartsUnpadded(ops: seq<Op>)
  {
    forall i :: 0 <= i < |ops| && ops[i].Permutation? ==> NoPaddingInParts(ops[i].parts)
  }

  lemma {:induction false} NoPaddingAppend(a: seq<Op>, b: seq<Op>)
    ensures NoPadding(a + b) <==> NoPadding(a) && NoPadding(b)
    decreases |a|
  {
    if a == [] {
      assert a + b == b;
    } else {
      NoPaddingAppend(a[1..], b);
      assert (a + b)[1..] == a[1..] + b;
    }
  }

  lemma {:induction false} NoPaddingPlain(ops: seq<Op>)
    requires NoPadding(ops)
    ensures PartsUnpadded(ops)
    decreases |ops|
  {
    if ops != [] {
      NoPaddingPlain(ops[1..]);
      forall i | 0 <= i < |ops| && ops[i].Permutation? ensures NoPaddingInParts(ops[i].parts) {
        if i > 0 { assert ops[1..][i - 1] == ops[i]; }
      }
    }
  }

  lemma {:induction false} NodeUnpadded(node: Node, ctx: Context)
    requires NoPadding(FlattenNode(node))
    ensures !NodeShape(node, ctx).padded
    decreases node, 0
  {
    match node {
      case Leaf(op) =>
      case Scope(inside) =>
        NoPaddingAppend([BeginScope] + Flatten(inside), [EndScope]);
        NoPaddingAppend([BeginScope], Flatten(inside));
        Unpadded(inside, ctx);
      case Mix(groups) =>
        GroupsUnpadded(groups, ctx);
    }
  }

  lemma {:induction false} Unpadded(nodes: seq<Node>, ctx: Context)
    requires NoPadding(Flatten(nodes))
    ensures !ShapeOf(nodes, ctx).padded
    decreases nodes, 1
  {
    hide NodeShape, FlattenNode;
    if nodes != [] {
      NoPaddingAppend(FlattenNode(nodes[0]), Flatten(nodes[1..]));
      NodeUnpadded(nodes[0], ctx);
      Unpadded(nodes[1..], ctx);
    }
  }

  lemma {:induction false} GroupsUnpadded(groups: seq<Group>, ctx: Context)
    requires NoPaddingInParts(FlattenGroups(groups))
    ensures !GroupsShape(groups, ctx).padded
    decreases groups, 1
  {
    if groups != [] {
      assert FlattenGroups(groups)[1..] == FlattenGroups(groups[1..]);
      Unpadded(groups[0].nodes, ctx);
      GroupsUnpadded(groups[1..], ctx);
    }
  }

  lemma {:induction false} NodeUnpaddedSteady(node: Node, ctx: Context, at: nat)
    requires PartsUnpadded(FlattenNode(node))
    ensures NodeSteady(node, ctx, at)
    decreases node, 0
  {
    match node {
      case Leaf(op) =>
      case Scope(inside) =>
        var ops := FlattenNode(node);
        forall i | 0 <= i < |Flatten(inside)| ensures Flatten(inside)[i] == ops[i + 1] {
        }
        UnpaddedSteady(inside, ctx, at + 2);
      case Mix(groups) =>
        assert NoPaddingInParts(FlattenNode(node)[0].parts);
        GroupsUnpaddedSteady(groups, ctx, at);
    }
  }

  lemma {:induction false} UnpaddedSteady(nodes: seq<Node>, ctx: Context, at: nat)
    requires PartsUnpadded(Flatten(nodes))
    ensures Steady(nodes, ctx, at)
    decreases nodes, 1
  {
    hide NodeSteady, NodeLen, FlattenNode, NoPaddingInParts;
    if nodes != [] {
      var first, later := FlattenNode(nodes[0]), Flatten(nodes[1..]);
      forall i | 0 <= i < |first| ensures first[i] == Flatten(nodes)[i] {
      }
      forall i | 0 <= i < |later| ensures later[i] == Flatten(nodes)[|first| + i] {
      }
      NodeUnpaddedSteady(nodes[0], ctx, at);
      UnpaddedSteady(nodes[1..], ctx, at + NodeLen(nodes[0], ctx, at));
    }
  }

  lemma {:induction false} GroupsUnpaddedSteady(groups: seq<Group>, ctx: Context, at: nat)
    requires NoPaddingInParts(FlattenGroups(groups))
    ensures GroupsSteady(groups, ctx, at)
    decreases groups, 1
  {
    hide Len, ShapeOf, Steady, NoPadding;
    if groups != [] {
      assert FlattenGroups(groups)[1..] == FlattenGroups(groups[1..]);
      Unpadded(groups[0].nodes, ctx);
      NoPaddingPlain(Flatten(groups[0].nodes));
      UnpaddedSteady(groups[0].nodes, ctx, 0);
      GroupsUnpaddedSteady(groups[1..], ctx, at + Len(groups[0].nodes, ctx, at));
    }
  }

  /** Padding outside the parts of permutations never makes the passes disagree. */
  lemma UnpaddedAgree(ops: seq<Op>, ctx: Context, length: nat)
    requires PartsNested(ops) && PartsUnpadded(ops) && Accepts(ops, ctx, length)
    ensures Agreeable(ops, ctx)
  {
    hide CalcOps, Nested, PartsNested, Flatten, Parse, Steady, PartsUnpadded;
    AcceptedNested(ops, ctx, CALC_START);
    var tree := TreeOf(ops);
    UnpaddedSteady(tree, ctx, 0);
  }

  // ---------------------------------------------------------------------------------------------------------
  // Padding in parts
  // ---------------------------------------------------------------------------------------------------------

  /** Padding inside a part: it is counted from the start of the hello in the first pass and from the start of the part
      in the second, which therefore writes more than there is room for. */
  lemma PaddingInPart(text: seq<byte>, ctx: Context)
    requires Fair(ctx) && 0 < |text| < 513
    ensures var ops := [Str(text), Permutation([Part([Padding])])];
            && Accepts(ops, ctx, 517) && !Agreeable(ops, ctx)
            && StoreOps(ops, ctx, STORE_START).ok && |StoreOps(ops, ctx, STORE_START).out| == |text| + 517
  {
    hide Agreeable;
    var perm := Permutation([Part([Padding])]);
    assert [Str(text), perm] == [Str(text)] + [perm];
    CalcAppend([Str(text)], [perm], ctx, CALC_START);
    StoreAppend([Str(text)], [perm], ctx, STORE_START);
    CalcSingle(Str(text), ctx, CALC_START);
    StoreSingle(Str(text), ctx, STORE_START);
    assert [] + text == text;
    hide CalcOps, StoreOps, Fair;
    PaddedPartCalc(ctx, Calc(|text|, [], false));
    PaddedPartStore(ctx, Store(text, [], 0, true));
    PassesAgreeExactly([Str(text), perm], ctx, 517);
  }

  /** The same part at the start of the hello: both passes count its padding from zero. */
  lemma PaddingFirst(ctx: Context)
    requires Fair(ctx)
    ensures var ops := [Permutation([Part([Padding])])];
            && Accepts(ops, ctx, 517) && Agreeable(ops, ctx)
            && StoreOps(ops, ctx, STORE_START).ok && |StoreOps(ops, ctx, STORE_START).out| == 517
  {
    hide CalcOps, StoreOps, Fair, Agreeable;
    PaddedPartCalc(ctx, CALC_START);
    PaddedPartStore(ctx, STORE_START);
    PassesAgreeExactly([Permutation([Part([Padding])])], ctx, 517);
  }

  lemma PaddedPartCalc(ctx: Context, st: Calc)
    requires !st.error && st.size < 513
    ensures CalcOps([Permutation([Part([Padding])])], ctx, st) == st.(size := 517)
  {
    var parts := [Part([Padding])];
    CalcSingle(Permutation(parts), ctx, st);
    CalcSingle(Padding, ctx, st);
    hide CalcOps;
    assert parts[1..] == [];
    assert CalcParts([], ctx, st.(size := 517)) == st.(size := 517);
  }

  lemma PaddedPartStore(ctx: Context, st: Store)
    requires Fair(ctx) && st.ok
    ensures var done := StoreOps([Permutation([Part([Padding])])], ctx, st);
            done.ok && |done.out| == |st.out| + 517
  {
    hide Fair, StoreOps, CalcOps, LeafBytes;
    var parts := [Part([Padding])];
    var start := Store([], [], st.drawn, true);
    StoreSingle(Permutation(parts), ctx, st);
    StoreSingle(Padding, ctx, start);
    StoreLeaf(Padding, ctx, start);
    LeafLength(Padding, ctx, 0, st.drawn);
    CalcSingle(Padding, ctx, CALC_START);
    var block := StoreOps(parts[0].ops, ctx, start);
    assert |block.out| == 517;
    var rest := parts[1..];
    assert rest == [] && StoreParts(rest, ctx, block.drawn) == ([], block.drawn, true);
    assert CalcOps(parts[0].ops, ctx, CALC_START).size == 517;
    hide StoreOp;
    var none: seq<seq<byte>> := [];
    assert [block.out] + none == [block.out];
    assert StoreParts(parts, ctx, st.drawn) == ([block.out], block.drawn, true);
    ShuffledLength(ctx, block.drawn, [block.out]);
    assert [block.out][1..] == none;
    PermutationStep(parts, ctx, st);
  }

  lemma PermutationStep(parts: seq<Part>, ctx: Context, st: Store)
    requires Fair(ctx) && st.ok && StoreParts(parts, ctx, st.drawn).2
    ensures var (blocks, drawn, _) := StoreParts(parts, ctx, st.drawn);
            StoreOp(Permutation(parts), ctx, st)
            == Store(st.out + Join(ctx.shuffle(drawn, blocks)), st.scopes, drawn + 1, true)
  {
    hide Fair, StoreParts;
  }
}
