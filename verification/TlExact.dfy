/** A stored value comes back exactly if it fits and no use of a type in it makes the two generators disagree. */
module TlExact {
  import opened Bytes
  import opened Options
  import opened TlCodec
  import opened TlSchema
  import opened TlGenerator
  import opened TlRuntime
  import opened TlRoundTrip

  // ---------------------------------------------------------------------------------------------------------
  // How many bytes fetching takes at least
  // ---------------------------------------------------------------------------------------------------------

  /** The length of a stored string. */
  function TextSize(n: nat): nat
  {
    if n < 254 then 1 + n + Padding(n + 1) else if n < 0x100_0000 then 4 + n + Padding(n) else 8 + n + Padding(n)
  }

  /** Fetching with `cls` cannot return `x` after fewer bytes; a string may have been sent in a longer form. */
  ghost function Least(schema: Schema, cls: FetchClass, x: Value): nat
    decreases x, 2, cls
  {
    match cls
    case FetchInt => 4
    case FetchLong => 8
    case FetchDouble => 8
    case FetchInt128 => 16
    case FetchInt256 => 32
    case FetchInt512 => 64
    case FetchBool => 4
    case FetchString => if x.Text? then TextSize(|x.text|) else 0
    case FetchVector(item) => if x.List? then 4 + LeastItems(schema, item, x.items) else 0
    case FetchConstructor(c) => LeastObject(schema, x)
    case FetchType(_) => 4 + LeastObject(schema, x)
    case FetchBoxed(inner, _) => 4 + Least(schema, inner, x)
  }

  ghost function LeastItems(schema: Schema, cls: FetchClass, items: seq<Value>): nat
    decreases items, 3, cls
  {
    if items == [] then 0 else Least(schema, cls, items[0]) + LeastItems(schema, cls, items[1..])
  }

  ghost function LeastObject(schema: Schema, x: Value): nat
    decreases x, 1
  {
    if x.Obj? && FetchRoutine(schema, x.c, 0, {}).Some?
    then LeastStmts(schema, FetchRoutine(schema, x.c, 0, {}).value, x, 0, map[])
    else 0
  }

  /** The statements that leave behind the fields from `k` on. */
  ghost function LeastStmts(schema: Schema, routine: seq<FetchStmt>, x: Value, k: nat, env: Env): nat
    requires x.Obj?
    decreases x, 0, |routine|
  {
    if routine == [] || |x.fields| <= k then 0
    else
      match routine[0]
      case FetchTrueBit(_) => LeastStmts(schema, routine[1..], x, k + 1, env)
      case FetchField(cond, cls, _) =>
        (if Present(cond, env) then Least(schema, cls, x.fields[k]) else 0)
        + LeastStmts(schema, routine[1..], x, k + 1, env)
      case FetchFlags(cond, v, cls) =>
        if Present(cond, env) && x.fields[k].Word? then
          Least(schema, cls, x.fields[k]) + LeastStmts(schema, routine[1..], x, k + 1, env[v := x.fields[k].bits])
        else LeastStmts(schema, routine[1..], x, k + 1, env[v := 0])
  }

  lemma TextConsumes(b: seq<byte>)
    ensures var r := TlCodec.FetchString(b); r.Ok? ==> |r.rest| + TextSize(|r.value|) <= |b|
  {
    if |b| >= 4 {
      if b[0] < 254 {
        ShortAlignment(b[0]);
      } else if b[0] == 254 {
        Pow256Small();
        FromLEBound(b[1..4]);
        hide FromLE;
        AlignmentUp(FromLE(b[1..4]));
      } else if |b| >= 8 {
        hide FromLE;
        AlignmentUp(FromLE(b[1..8]));
      }
    }
  }

  /** Fetching takes at least that many bytes. */
  lemma {:induction false} Consumes(schema: Schema, cls: FetchClass, b: seq<byte>, fuel: nat)
    ensures var r := FetchValue(schema, cls, b, fuel); r.Ok? ==> |r.rest| + Least(schema, cls, r.value) <= |b|
    decreases fuel, 0, cls, 0
  {
    hide FromLE, TlCodec.FetchString, TextSize, FindById, SupportedOnly;
    match cls {
      case FetchString => TextConsumes(b);
      case FetchVector(item) =>
        var count := FetchWord(b, 4);
        if count.Ok? && count.value <= |count.rest| { ItemsConsume(schema, item, count.value, count.rest, fuel); }
      case FetchConstructor(c) => if fuel > 0 { ObjectConsumes(schema, c, b, fuel - 1); }
      case FetchType(name) =>
        var id := FetchWord(b, 4);
        if id.Ok? && fuel > 0 {
          var found := FindById(SupportedOnly(Constructors(schema, name)), id.value);
          if found.Some? { ObjectConsumes(schema, found.value, id.rest, fuel - 1); }
        }
      case FetchBoxed(inner, id) =>
        var n := FetchWord(b, 4);
        if n.Ok? && n.value == id { Consumes(schema, inner, n.rest, fuel); }
      case _ =>
    }
  }

  lemma {:induction false} ItemsConsume(schema: Schema, cls: FetchClass, n: nat, b: seq<byte>, fuel: nat)
    ensures var r := FetchItems(schema, cls, n, b, fuel); r.Ok? ==> |r.rest| + LeastItems(schema, cls, r.value) <= |b|
    decreases fuel, 0, cls, n + 1
  {
    hide FetchValue, Least;
    if n > 0 {
      var first := FetchValue(schema, cls, b, fuel);
      Consumes(schema, cls, b, fuel);
      if first.Ok? {
        ItemsConsume(schema, cls, n - 1, first.rest, fuel);
        var later := FetchItems(schema, cls, n - 1, first.rest, fuel);
        if later.Ok? { assert ([first.value] + later.value)[1..] == later.value; }
      }
    }
  }

  lemma {:induction false} ObjectConsumes(schema: Schema, c: Combinator, b: seq<byte>, fuel: nat)
    ensures var r := FetchObject(schema, c, b, fuel);
            r.Ok? ==> r.value.Obj? && |r.rest| + LeastObject(schema, r.value) <= |b|
    decreases fuel, 2
  {
    hide FetchRoutine, FetchStmts, LeastStmts;
    var routine := FetchRoutine(schema, c, 0, {});
    if routine.Some? {
      var r := FetchStmts(schema, routine.value, b, map[], fuel);
      if r.Ok? {
        assert r.value[0..] == r.value;
        StmtsConsume(schema, routine.value, b, map[], fuel, Obj(c, r.value), 0);
      }
    }
  }

  lemma {:induction false} StmtsConsume(schema: Schema, routine: seq<FetchStmt>, b: seq<byte>, env: Env, fuel: nat,
                                        x: Value, k: nat)
    requires var r := FetchStmts(schema, routine, b, env, fuel);
             r.Ok? && x.Obj? && k <= |x.fields| && x.fields[k..] == r.value
    ensures |FetchStmts(schema, routine, b, env, fuel).rest| + LeastStmts(schema, routine, x, k, env) <= |b|
    decreases fuel, 1, |routine|
  {
    hide FetchValue, Least, HasBit;
    if routine != [] {
      var later := routine[1..];
      FirstField(schema, routine, b, env, fuel);
      match routine[0] {
        case FetchTrueBit(cond) => StmtsConsume(schema, later, b, env, fuel, x, k + 1);
        case FetchField(cond, cls, absent) =>
          if Present(cond, env) {
            Consumes(schema, cls, b, fuel);
            StmtsConsume(schema, later, FetchValue(schema, cls, b, fuel).rest, env, fuel, x, k + 1);
          } else {
            StmtsConsume(schema, later, b, env, fuel, x, k + 1);
          }
        case FetchFlags(cond, v, cls) =>
          if Present(cond, env) {
            Consumes(schema, cls, b, fuel);
            var first := FetchValue(schema, cls, b, fuel);
            StmtsConsume(schema, later, first.rest, env[v := first.value.bits], fuel, x, k + 1);
          } else {
            StmtsConsume(schema, later, b, env[v := 0], fuel, x, k + 1);
          }
      }
    }
  }

  /** The first statement leaves the first field behind. */
  lemma FirstField(schema: Schema, routine: seq<FetchStmt>, b: seq<byte>, env: Env, fuel: nat)
    requires routine != [] && FetchStmts(schema, routine, b, env, fuel).Ok?
    ensures FetchStmts(schema, routine, b, env, fuel).value != []
  {
    hide FetchValue, HasBit;
  }

  // ---------------------------------------------------------------------------------------------------------
  // How many bytes storing gives
  // ---------------------------------------------------------------------------------------------------------

  /** Storing `v` succeeds and gives no more bytes than fetching its normal form takes, and fewer if it clashes. */
  ghost predicate Short(b: Option<seq<byte>>, least: nat, agree: bool)
  {
    b.Some? && |b.value| <= least && (agree || |b.value| < least)
  }

  lemma LeafShort(schema: Schema, t: Tree, v: Value)
    requires IsLeaf(t.name) && WellTyped(schema, v, t)
    requires StoreClassOf(schema, t).Some? && FetchClassOf(schema, t).Some?
    ensures Normal(v) == v
    ensures Short(StoreValue(schema, StoreClassOf(schema, t).value, v),
                  Least(schema, FetchClassOf(schema, t).value, v), true)
  {
    hide LE;
  }

  /** Every value is stored, in fewer bytes than its fetching takes exactly if a use of a type in it clashes. */
  lemma {:induction false} ValueShort(schema: Schema, t: Tree, v: Value)
    requires Accepted(schema) && FullStoreClass(schema, t).Some? && FullFetchClass(schema, t).Some?
    requires WellTyped(schema, v, t)
    ensures Short(StoreValue(schema, FullStoreClass(schema, t).value, v),
                  Least(schema, FullFetchClass(schema, t).value, Normal(v)), Agree(schema, v, t))
    decreases v, 5, 0
  {
    hide LE;
    var sc, fc := FullStoreClass(schema, t).value, FullFetchClass(schema, t).value;
    if BoxingClash(schema, t) {
      ClashShort(schema, t, v);
    } else {
      ClassesPaired(schema, t);
      var si, fi := StoreClassOf(schema, t).value, FetchClassOf(schema, t).value;
      hide FullStoreClass, FullFetchClass, StoreClassOf, FetchClassOf, Agree;
      if t.name.Named? {
        NamedShort(schema, t, sc, fc, v);
      } else {
        PlainShort(schema, t, v);
        if sc != si || fc != fi {
          var id :| id < 0x1_0000_0000 && sc == StoreBoxed(si, id) && fc == FetchBoxed(fi, id);
          BoxedShort(schema, si, fi, id, v, Agree(schema, v, t));
        }
      }
    }
  }

  lemma ClashShort(schema: Schema, t: Tree, v: Value)
    requires BoxingClash(schema, t) && FullStoreClass(schema, t).Some? && FullFetchClass(schema, t).Some?
    requires WellTyped(schema, v, t)
    ensures Short(StoreValue(schema, FullStoreClass(schema, t).value, v),
                  Least(schema, FullFetchClass(schema, t).value, Normal(v)), false)
  {
    hide LE;
    var id := ClashClasses(schema, t);
  }

  lemma BoxedShort(schema: Schema, si: StoreClass, fi: FetchClass, id: nat, v: Value, agree: bool)
    requires Short(StoreValue(schema, si, v), Least(schema, fi, Normal(v)), agree)
    ensures Short(StoreValue(schema, StoreBoxed(si, id), v), Least(schema, FetchBoxed(fi, id), Normal(v)), agree)
  {
    hide LE;
  }

  lemma {:induction false} PlainShort(schema: Schema, t: Tree, v: Value)
    requires Accepted(schema) && !BoxingClash(schema, t) && !t.name.Named?
    requires StoreClassOf(schema, t).Some? && FetchClassOf(schema, t).Some? && WellTyped(schema, v, t)
    ensures Short(StoreValue(schema, StoreClassOf(schema, t).value, v),
                  Least(schema, FetchClassOf(schema, t).value, Normal(v)), Agree(schema, v, t))
    decreases v, 4, 0
  {
    hide LE;
    if IsLeaf(t.name) {
      LeafShort(schema, t, v);
    } else {
      var child := t.children[0];
      ItemsShort(schema, child, v.items);
      VectorShort(schema, FullStoreClass(schema, child).value, FullFetchClass(schema, child).value, v,
                  AllAgree(schema, v.items, child));
    }
  }

  ghost predicate AllAgree(schema: Schema, items: seq<Value>, t: Tree)
  {
    forall i :: 0 <= i < |items| ==> Agree(schema, items[i], t)
  }

  lemma VectorShort(schema: Schema, sc: StoreClass, fc: FetchClass, v: Value, agree: bool)
    requires v.List? && |v.items| < 0x8000_0000
    requires Short(StoreItems(schema, sc, v.items), LeastItems(schema, fc, NormalItems(v.items)), agree)
    ensures Short(StoreValue(schema, StoreVector(sc), v), Least(schema, FetchVector(fc), Normal(v)), agree)
  {
    hide LE, StoreItems, LeastItems;
    assert Normal(v) == List(NormalItems(v.items));
  }

  lemma {:induction false} ItemsShort(schema: Schema, t: Tree, items: seq<Value>)
    requires Accepted(schema) && FullStoreClass(schema, t).Some? && FullFetchClass(schema, t).Some?
    requires forall i :: 0 <= i < |items| ==> WellTyped(schema, items[i], t)
    ensures Short(StoreItems(schema, FullStoreClass(schema, t).value, items),
                  LeastItems(schema, FullFetchClass(schema, t).value, NormalItems(items)), AllAgree(schema, items, t))
    decreases items, 6, 0
  {
    hide Accepted, FullStoreClass, FullFetchClass, WellTyped, StoreValue, Least, Agree, Normal;
    if items != [] {
      ItemsShort(schema, t, items[1..]);
      ValueShort(schema, t, items[0]);
      assert NormalItems(items)[0] == Normal(items[0]) && NormalItems(items)[1..] == NormalItems(items[1..]);
      AllAgreeStep(schema, items, t);
    }
  }

  lemma AllAgreeStep(schema: Schema, items: seq<Value>, t: Tree)
    requires items != []
    ensures AllAgree(schema, items, t) <==> Agree(schema, items[0], t) && AllAgree(schema, items[1..], t)
  {
    hide Agree;
    if Agree(schema, items[0], t) && AllAgree(schema, items[1..], t) {
      forall i | 0 <= i < |items| ensures Agree(schema, items[i], t) {
        if i > 0 { assert items[i] == items[1..][i - 1]; }
      }
    }
  }

  lemma {:induction false} NamedShort(schema: Schema, t: Tree, sc: StoreClass, fc: FetchClass, v: Value)
    requires Accepted(schema) && !BoxingClash(schema, t) && t.name.Named? && Paired(schema, t, sc, fc)
    requires WellTyped(schema, v, t)
    ensures Short(StoreValue(schema, sc, v), Least(schema, fc, Normal(v)), Agree(schema, v, t))
    decreases v, 4, 0
  {
    hide Accepted, StoreRoutine, FetchRoutine, FieldsTyped, Paired, FieldsAgree, LE;
    AcceptedType(schema, t.name, v.c);
    ObjectShort(schema, v);
    hide LeastObject;
    if SimpleConstructors(schema, t.name) > 1 {
      DispatchPair(schema, t, sc, fc);
    } else {
      var boxed, id := ConstructorPair(schema, t, sc, fc, v.c);
    }
  }

  lemma {:induction false} ObjectShort(schema: Schema, v: Value)
    requires Accepted(schema) && v.Obj? && |v.fields| == |v.c.args| && FieldsTyped(schema, v, 0, map[])
    requires StoreRoutine(schema, v.c, 0, {}).Some? && FetchRoutine(schema, v.c, 0, {}).Some?
    ensures Short(StoreValue(schema, StoreObject, v), LeastObject(schema, Normal(v)), FieldsAgree(schema, v, 0, map[]))
    decreases v, 3, 0
  {
    hide StoreRoutine, FetchRoutine, FieldsTyped, Accepted, FieldsAgree;
    assert Normal(v) == Obj(v.c, NormalFields(v, 0, map[]));
    assert Normal(v).fields[0..] == NormalFields(v, 0, map[]);
    StmtsShort(schema, v, 0, {}, map[], Normal(v));
    hide StoreStmts, LeastStmts, NormalFields, Normal;
  }

  lemma {:induction false} StmtsShort(schema: Schema, v: Value, i: nat, stored: set<nat>, env: Env, x: Value)
    requires Accepted(schema) && v.Obj? && i <= |v.c.args| == |v.fields| && FieldsTyped(schema, v, i, env)
    requires StoreRoutine(schema, v.c, i, stored).Some? && FetchRoutine(schema, v.c, i, stored).Some?
    requires env.Keys == stored && x.Obj? && |x.fields| == |v.fields| && x.fields[i..] == NormalFields(v, i, env)
    ensures Short(StoreStmts(schema, StoreRoutine(schema, v.c, i, stored).value, v, env),
                  LeastStmts(schema, FetchRoutine(schema, v.c, i, stored).value, x, i, env),
                  FieldsAgree(schema, v, i, env))
    decreases v, 2, |v.c.args| - i
  {
    if i == |v.c.args| {
      hide Accepted, FieldsTyped;
    } else {
      hide Accepted, FieldsTyped, FullStoreClass, FullFetchClass, MergedFlags, StoreRoutine, FetchRoutine, FieldStore,
           FieldFetch, EnvAfter, VarsAfter, IsTrueField, Present, StoreStmts, WellTyped, FieldsAgree, Agree, LeastStmts,
           NormalFields, NormalField, Least, Short;
      var a, env' := v.c.args[i], EnvAfter(v.c, v.fields, i, env);
      RoutineParts(schema, v.c, i, stored);
      FieldTyped(schema, v, i, env);
      EnvKeys(v.c, v.fields, i, env, stored);
      NextField(v, i, env, x);
      StmtsShort(schema, v, i + 1, VarsAfter(a, stored), env', x);
      RoutineHeads(schema, v.c, i, stored);
      var ss, fs := StoreRoutine(schema, v.c, i, stored).value, FetchRoutine(schema, v.c, i, stored).value;
      assert RestShort(schema, v, i, stored, env, x, ss, fs);
      hide RestShort;
      if IsTrueField(a) {
        TrueShort(schema, v, i, stored, env, x, ss, fs);
      } else if a.varNum.Some? {
        FlagsShort(schema, v, i, stored, env, x, ss, fs);
      } else {
        if Present(a.exist, env) { ValueShort(schema, a.ty, v.fields[i]); }
        FieldShort(schema, v, i, stored, env, x, ss, fs);
      }
    }
  }

  lemma NextField(v: Value, i: nat, env: Env, x: Value)
    requires v.Obj? && i < |v.c.args| == |v.fields| && x.Obj? && |x.fields| == |v.fields|
    requires x.fields[i..] == NormalFields(v, i, env)
    ensures x.fields[i] == NormalField(v, i, env)
    ensures x.fields[i + 1..] == NormalFields(v, i + 1, EnvAfter(v.c, v.fields, i, env))
  {
    hide NormalField, EnvAfter;
    assert x.fields[i] == x.fields[i..][0] && x.fields[i + 1..] == x.fields[i..][1..];
  }

  /** The situation in the middle of a routine: the statements for field `i` and those after it, which are short. */
  ghost predicate RestShort(schema: Schema, v: Value, i: nat, stored: set<nat>, env: Env, x: Value,
                            ss: seq<StoreStmt>, fs: seq<FetchStmt>)
  {
    && v.Obj? && i < |v.c.args| == |v.fields| && v.c.args[i].Arg? && env.Keys == stored
    && x.Obj? && |x.fields| == |v.fields| && x.fields[i] == NormalField(v, i, env)
    && ss != [] && FieldStore(schema, v.c, i, stored) == Some(ss[0])
    && fs != [] && FieldFetch(schema, v.c, i, stored) == Some(fs[0])
    && var env' := EnvAfter(v.c, v.fields, i, env);
       Short(StoreStmts(schema, ss[1..], v, env'), LeastStmts(schema, fs[1..], x, i + 1, env'),
             FieldsAgree(schema, v, i + 1, env'))
  }

  lemma TrueShort(schema: Schema, v: Value, i: nat, stored: set<nat>, env: Env, x: Value,
                  ss: seq<StoreStmt>, fs: seq<FetchStmt>)
    requires RestShort(schema, v, i, stored, env, x, ss, fs) && IsTrueField(v.c.args[i])
    ensures Short(StoreStmts(schema, ss, v, env), LeastStmts(schema, fs, x, i, env), FieldsAgree(schema, v, i, env))
  {
    NoTrueClass(schema, v.c.args[i].ty);
    hide FullStoreClass, FullFetchClass, StoreValue, Least, Agree, BoxingClash, HasBit, MergedFlags;
    assert EnvAfter(v.c, v.fields, i, env) == env;
  }

  lemma FlagsShort(schema: Schema, v: Value, i: nat, stored: set<nat>, env: Env, x: Value,
                   ss: seq<StoreStmt>, fs: seq<FetchStmt>)
    requires RestShort(schema, v, i, stored, env, x, ss, fs)
    requires v.c.args[i].varNum.Some? && v.c.args[i].exist.None? && v.fields[i].Word?
    ensures Short(StoreStmts(schema, ss, v, env), LeastStmts(schema, fs, x, i, env), FieldsAgree(schema, v, i, env))
  {
    var a := v.c.args[i];
    var y := a.varNum.value;
    var bits := MergedFlags(v.c.args, v.fields, y, v.fields[i].bits, 0);
    NatClasses(schema, a.ty, x.fields[i]);
    MergeIsMergedFlags(v.c.args, v.fields, y, v.fields[i].bits, 0);
    hide FullStoreClass, FullFetchClass, StoreValue, Least, Agree, BoxingClash, HasBit, MergedFlags, Merge, LE,
         TrueFields;
    assert EnvAfter(v.c, v.fields, i, env) == env[y := bits];
    assert x.fields[i] == Word(4, bits);
    assert ss[0] == StoreFlags(i, None, y, TrueFields(v.c.args, y, 0), StoreBinary);
    assert StoreStmts(schema, ss, v, env) == Join(Some(LE(bits, 4)), StoreStmts(schema, ss[1..], v, env[y := bits]));
  }

  /** The classes of a `#` field, and what its fetching takes. */
  lemma NatClasses(schema: Schema, t: Tree, x: Value)
    requires FullStoreClass(schema, t).Some? && FullFetchClass(schema, t).Some? && t.name.Nat?
    ensures FullStoreClass(schema, t).value == StoreBinary
    ensures Least(schema, FullFetchClass(schema, t).value, x) == if BoxingClash(schema, t) then 8 else 4
  {
    CandidatesAreSupported(Constructors(schema, t.name));
  }

  lemma FieldShort(schema: Schema, v: Value, i: nat, stored: set<nat>, env: Env, x: Value,
                   ss: seq<StoreStmt>, fs: seq<FetchStmt>)
    requires RestShort(schema, v, i, stored, env, x, ss, fs)
    requires v.c.args[i].varNum.None? && !IsTrueField(v.c.args[i])
    requires var a := v.c.args[i];
             && FullStoreClass(schema, a.ty).Some? && FullFetchClass(schema, a.ty).Some?
             && (Present(a.exist, env) ==>
                   Short(StoreValue(schema, FullStoreClass(schema, a.ty).value, v.fields[i]),
                         Least(schema, FullFetchClass(schema, a.ty).value, Normal(v.fields[i])),
                         Agree(schema, v.fields[i], a.ty)))
    ensures Short(StoreStmts(schema, ss, v, env), LeastStmts(schema, fs, x, i, env), FieldsAgree(schema, v, i, env))
  {
    hide FullStoreClass, FullFetchClass, StoreValue, Least, Agree, BoxingClash, HasBit, MergedFlags, Normal, DefaultOf;
    var a := v.c.args[i];
    assert EnvAfter(v.c, v.fields, i, env) == env;
    if Present(a.exist, env) { assert x.fields[i] == Normal(v.fields[i]); }
  }

  // ---------------------------------------------------------------------------------------------------------
  // Exactly
  // ---------------------------------------------------------------------------------------------------------

  /** For every value of every type of every schema for which all routines are emitted: it is stored, and fetching the
      bytes, whatever follows them, gives it back in normal form and leaves what follows if and only if it fits and no
      use of a type in it makes the generators disagree. */
  lemma ComesBackExactly(schema: Schema, t: Tree, v: Value, rest: seq<byte>, fuel: nat)
    requires Accepted(schema) && FullStoreClass(schema, t).Some? && FullFetchClass(schema, t).Some?
    requires WellTyped(schema, v, t) && Depth(v) <= fuel
    ensures var sc, fc := FullStoreClass(schema, t).value, FullFetchClass(schema, t).value;
            var b := StoreValue(schema, sc, v);
            && b.Some?
            && (FetchValue(schema, fc, b.value + rest, fuel) == Ok(Normal(v), rest) <==>
                Agree(schema, v, t) && Fits(schema, sc, v, |rest|))
  {
    hide Accepted, FullStoreClass, FullFetchClass, WellTyped, StoreValue, FetchValue, Fits, Agree, Least, Normal;
    var sc, fc := FullStoreClass(schema, t).value, FullFetchClass(schema, t).value;
    ValueShort(schema, t, v);
    var b := StoreValue(schema, sc, v).value;
    if Agree(schema, v, t) {
      ValueRoundTrip(schema, t, v, rest, fuel);
    } else {
      Consumes(schema, fc, b + rest, fuel);
    }
  }
}
