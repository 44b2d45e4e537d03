/** Fetching with the emitted routines undoes storing with them. */
module TlRoundTrip {
  import opened Bytes
  import opened Options
  import opened TlCodec
  import opened TlSchema
  import opened TlGenerator
  import opened TlRuntime

  // ---------------------------------------------------------------------------------------------------------
  // When a stored value can be fetched
  // ---------------------------------------------------------------------------------------------------------

  ghost function Size(b: Option<seq<byte>>): nat
  {
    if b.Some? then |b.value| else 0
  }

  /** `v` is stored by `cls` and `after` more bytes follow it. Fetching makes two checks storing does not make: a
      vector must not have more items than bytes follow its count, and a flags word must not be negative. */
  ghost predicate Fits(schema: Schema, cls: StoreClass, v: Value, after: nat)
    decreases v, 2, cls
  {
    match cls
    case StoreVector(item) =>
      v.List? ==> && |v.items| <= Size(StoreItems(schema, item, v.items)) + after
                  && FitsItems(schema, item, v.items, after)
    case StoreObject =>
      v.Obj? && StoreRoutine(schema, v.c, 0, {}).Some? ==>
        FitsStmts(schema, StoreRoutine(schema, v.c, 0, {}).value, v, map[], after)
    case StoreBoxed(inner, _) => Fits(schema, inner, v, after)
    case StoreBoxedUnknown(inner) => Fits(schema, inner, v, after)
    case _ => true
  }

  ghost predicate FitsItems(schema: Schema, cls: StoreClass, items: seq<Value>, after: nat)
    decreases items, 3, cls
  {
    items == [] ||
    (Fits(schema, cls, items[0], Size(StoreItems(schema, cls, items[1..])) + after)
     && FitsItems(schema, cls, items[1..], after))
  }

  ghost predicate FitsStmts(schema: Schema, routine: seq<StoreStmt>, v: Value, env: Env, after: nat)
    requires v.Obj?
    decreases v, 1, |routine|
  {
    if routine == [] then true
    else
      match routine[0]
      case StoreNothing => FitsStmts(schema, routine[1..], v, env, after)
      case StoreField(f, cond, cls) =>
        && (f < |v.fields| && Present(cond, env) ==>
              Fits(schema, cls, v.fields[f], Size(StoreStmts(schema, routine[1..], v, env)) + after))
        && FitsStmts(schema, routine[1..], v, env, after)
      case StoreFlags(f, cond, x, merge, cls) =>
        f < |v.fields| && v.fields[f].Word? && Present(cond, env) ==>
          var word := Merge(v.fields, merge, v.fields[f].bits);
          word < 0x8000_0000 && FitsStmts(schema, routine[1..], v, env[x := word], after)
  }

  // ---------------------------------------------------------------------------------------------------------
  // Schemas
  // ---------------------------------------------------------------------------------------------------------

  ghost predicate DistinctIds(cs: seq<Combinator>)
  {
    && (forall i :: 0 <= i < |cs| ==> cs[i].id < 0x1_0000_0000)
    && (forall i, j :: 0 <= i < j < |cs| ==> cs[i].id != cs[j].id)
  }

  /** A schema for which all routines are emitted and compile. */
  ghost predicate Accepted(schema: Schema)
  {
    && (forall name :: DistinctIds(Constructors(schema, name)))
    && (forall name, c :: c in Constructors(schema, name) && Supported(c) ==>
          StoreRoutine(schema, c, 0, {}).Some? && FetchRoutine(schema, c, 0, {}).Some?)
  }

  /** No use of a type that makes the generators disagree occurs in the value `v` of type `t`: not in `t` itself, the
      items of a vector or the present fields of an object. */
  predicate Agree(schema: Schema, v: Value, t: Tree)
    decreases v, 1, 0
  {
    && !BoxingClash(schema, t)
    && (t.name.Vector? && |t.children| == 1 && v.List? ==>
          forall i :: 0 <= i < |v.items| ==> Agree(schema, v.items[i], t.children[0]))
    && (t.name.Named? && v.Obj? && |v.fields| == |v.c.args| ==> FieldsAgree(schema, v, 0, map[]))
  }

  predicate FieldsAgree(schema: Schema, v: Value, i: nat, env: Env)
    requires v.Obj? && i <= |v.c.args| == |v.fields|
    decreases v, 0, |v.c.args| - i
  {
    if i == |v.c.args| then true
    else
      var a := v.c.args[i];
      && FieldsAgree(schema, v, i + 1, EnvAfter(v.c, v.fields, i, env))
      && (a.Arg? && a.varNum.Some? ==> !BoxingClash(schema, a.ty))
      && (a.Arg? && a.varNum.None? && !IsTrueField(a) && Present(a.exist, env) ==> Agree(schema, v.fields[i], a.ty))
  }

  lemma {:induction false} SupportedIds(cs: seq<Combinator>)
    requires DistinctIds(cs)
    ensures DistinctIds(SupportedOnly(cs))
  {
    if cs != [] {
      assert DistinctIds(cs[1..]);
      SupportedIds(cs[1..]);
      var rest := SupportedOnly(cs[1..]);
      forall i | 0 <= i < |rest| ensures rest[i].id != cs[0].id {
        assert rest[i] in cs[1..];
      }
    }
  }

  lemma {:induction false} FindsItself(cs: seq<Combinator>, c: Combinator)
    requires DistinctIds(cs) && c in cs
    ensures FindById(cs, c.id) == Some(c)
  {
    if cs[0] != c {
      assert DistinctIds(cs[1..]);
      assert c in cs[1..];
      FindsItself(cs[1..], c);
    }
  }

  // ---------------------------------------------------------------------------------------------------------
  // Pairs of classes
  // ---------------------------------------------------------------------------------------------------------

  /** The store and fetch classes emitted for the same use of a type: equally boxed, or dispatching on the
      constructor on both sides. */
  ghost predicate Paired(schema: Schema, t: Tree, sc: StoreClass, fc: FetchClass)
  {
    && StoreClassOf(schema, t).Some? && FetchClassOf(schema, t).Some?
    && var si, fi := StoreClassOf(schema, t).value, FetchClassOf(schema, t).value;
       if t.name.Named? && SimpleConstructors(schema, t.name) > 1 then
         sc == StoreBoxedUnknown(StoreObject) && fc == FetchType(t.name)
       else
         || (sc == si && fc == fi)
         || exists id :: id < 0x1_0000_0000 && sc == StoreBoxed(si, id) && fc == FetchBoxed(fi, id)
  }

  lemma ClassesPaired(schema: Schema, t: Tree)
    requires Accepted(schema) && !BoxingClash(schema, t)
    requires FullStoreClass(schema, t).Some? && FullFetchClass(schema, t).Some?
    ensures Paired(schema, t, FullStoreClass(schema, t).value, FullFetchClass(schema, t).value)
  {
    hide StoreRoutine, FetchRoutine;
    SameBoxing(schema, t);
    FixedIds(schema, t);
    hide Accepted;
  }

  /** The fixed numbers are constructor numbers. */
  lemma FixedIds(schema: Schema, t: Tree)
    requires Accepted(schema)
    ensures StoreBoxing(schema, t).Some? && StoreBoxing(schema, t).value.Fixed? ==>
              StoreBoxing(schema, t).value.id < 0x1_0000_0000
  {
    hide StoreRoutine, FetchRoutine;
    assert DistinctIds(Constructors(schema, t.name));
    SupportedIds(Constructors(schema, t.name));
    hide Accepted;
  }

  // ---------------------------------------------------------------------------------------------------------
  // Simple values
  // ---------------------------------------------------------------------------------------------------------

  predicate IsLeaf(name: TypeName)
  {
    WidthOf(name) != 0 || name.Bool? || IsString(name)
  }

  lemma NumberRoundTrip(bits: nat, width: nat, rest: seq<byte>)
    requires bits < Pow256(width)
    ensures FetchNumber(LE(bits, width) + rest, width) == Ok(Word(width, bits), rest)
  {
    WordRoundTrip(bits, width, rest);
  }

  lemma LeafRoundTrip(schema: Schema, t: Tree, v: Value, rest: seq<byte>, fuel: nat)
    requires IsLeaf(t.name) && WellTyped(schema, v, t)
    requires StoreClassOf(schema, t).Some? && FetchClassOf(schema, t).Some?
    ensures var b := StoreValue(schema, StoreClassOf(schema, t).value, v);
            && b.Some?
            && FetchValue(schema, FetchClassOf(schema, t).value, b.value + rest, fuel) == Ok(v, rest)
            && Normal(v) == v && Fits(schema, StoreClassOf(schema, t).value, v, |rest|)
  {
    hide LE, FromLE, Pow256, StoreString, TlCodec.FetchString, FetchWord;
    if WidthOf(t.name) != 0 {
      NumberRoundTrip(v.bits, v.width, rest);
    } else if t.name.Bool? {
      FourBytes();
      WordRoundTrip(if v.b then BOOL_TRUE_ID else BOOL_FALSE_ID, 4, rest);
    } else {
      StringRoundTrip(v.text, rest);
    }
  }

  lemma FourBytes()
    ensures Pow256(4) == 0x1_0000_0000
  {
    Widths();
  }

  /** A fixed constructor number in front of a value is checked and skipped. */
  lemma BoxRoundTrip(schema: Schema, fi: FetchClass, id: nat, b: seq<byte>, rest: seq<byte>, fuel: nat)
    requires id < 0x1_0000_0000
    ensures FetchValue(schema, FetchBoxed(fi, id), LE(id, 4) + b + rest, fuel) == FetchValue(schema, fi, b + rest, fuel)
  {
    hide LE, FetchWord;
    FourBytes();
    WordRoundTrip(id, 4, b + rest);
    assert LE(id, 4) + b + rest == LE(id, 4) + (b + rest);
  }

  // ---------------------------------------------------------------------------------------------------------
  // Flags words
  // ---------------------------------------------------------------------------------------------------------

  lemma {:induction false} MergeIsMergedFlags(args: seq<Arg>, fields: seq<Value>, v: nat, word: nat, i: nat)
    requires i <= |args| == |fields|
    ensures Merge(fields, TrueFields(args, v, i), word) == MergedFlags(args, fields, v, word, i)
    decreases |args| - i
  {
    if i < |args| {
      var a := args[i];
      var mine := a.Arg? && a.exist.Some? && a.exist.value.v == v && a.ty.name.True?;
      var rest := TrueFields(args, v, i + 1);
      if mine {
        assert TrueFields(args, v, i) == [(i, a.exist.value.bit)] + rest;
        var word' := if fields[i] == Truth(true) then SetBit(word, a.exist.value.bit) else word;
        MergeIsMergedFlags(args, fields, v, word', i + 1);
      } else {
        assert TrueFields(args, v, i) == rest;
        MergeIsMergedFlags(args, fields, v, word, i + 1);
      }
    }
  }

  /** The classes emitted for a `#` field. */
  lemma FlagsClasses(schema: Schema, t: Tree)
    requires Accepted(schema) && !BoxingClash(schema, t) && t.name.Nat?
    requires FullStoreClass(schema, t).Some? && FullFetchClass(schema, t).Some?
    ensures FullStoreClass(schema, t).value == StoreBinary && FullFetchClass(schema, t).value == FetchInt
  {
    ClassesPaired(schema, t);
  }

  // ---------------------------------------------------------------------------------------------------------
  // All values
  // ---------------------------------------------------------------------------------------------------------

  /** What fetching gives for the stored form of `v`. */
  ghost predicate Returns(schema: Schema, sc: StoreClass, fc: FetchClass, v: Value, rest: seq<byte>, fuel: nat)
  {
    var b := StoreValue(schema, sc, v);
    && b.Some?
    && FetchValue(schema, fc, b.value + rest, fuel) == if Fits(schema, sc, v, |rest|) then Ok(Normal(v), rest) else Fail
  }

  /** Every value of every type of an accepted schema is stored, and fetching the bytes, whatever follows them, gives
      back the value in normal form and leaves what follows if and only if the value fits; otherwise it fails. */
  lemma {:induction false} ValueRoundTrip(schema: Schema, t: Tree, v: Value, rest: seq<byte>, fuel: nat)
    requires Accepted(schema) && Agree(schema, v, t)
    requires FullStoreClass(schema, t).Some? && FullFetchClass(schema, t).Some?
    requires WellTyped(schema, v, t) && Depth(v) <= fuel
    ensures Returns(schema, FullStoreClass(schema, t).value, FullFetchClass(schema, t).value, v, rest, fuel)
    decreases v, 5, 0
  {
    ClassesPaired(schema, t);
    var sc, fc := FullStoreClass(schema, t).value, FullFetchClass(schema, t).value;
    var si, fi := StoreClassOf(schema, t).value, FetchClassOf(schema, t).value;
    hide FullStoreClass, FullFetchClass, StoreClassOf, FetchClassOf;
    if t.name.Named? {
      NamedRoundTrip(schema, t, sc, fc, v, rest, fuel);
    } else {
      PlainRoundTrip(schema, t, v, rest, fuel);
      if sc != si || fc != fi {
        var id :| id < 0x1_0000_0000 && sc == StoreBoxed(si, id) && fc == FetchBoxed(fi, id);
        Boxed(schema, si, fi, id, v, rest, fuel);
      }
    }
  }

  lemma Boxed(schema: Schema, si: StoreClass, fi: FetchClass, id: nat, v: Value, rest: seq<byte>, fuel: nat)
    requires id < 0x1_0000_0000 && Returns(schema, si, fi, v, rest, fuel)
    ensures Returns(schema, StoreBoxed(si, id), FetchBoxed(fi, id), v, rest, fuel)
  {
    hide LE;
    BoxRoundTrip(schema, fi, id, StoreValue(schema, si, v).value, rest, fuel);
    assert StoreValue(schema, StoreBoxed(si, id), v) == Some(LE(id, 4) + StoreValue(schema, si, v).value);
    assert Fits(schema, StoreBoxed(si, id), v, |rest|) == Fits(schema, si, v, |rest|);
    hide FetchValue, StoreValue, Fits;
  }

  /** Numbers, truth values, strings and vectors, without a number in front. */
  lemma {:induction false} PlainRoundTrip(schema: Schema, t: Tree, v: Value, rest: seq<byte>, fuel: nat)
    requires Accepted(schema) && Agree(schema, v, t) && !t.name.Named?
    requires StoreClassOf(schema, t).Some? && FetchClassOf(schema, t).Some?
    requires WellTyped(schema, v, t) && Depth(v) <= fuel
    ensures Returns(schema, StoreClassOf(schema, t).value, FetchClassOf(schema, t).value, v, rest, fuel)
    decreases v, 4, 0
  {
    if IsLeaf(t.name) {
      LeafRoundTrip(schema, t, v, rest, fuel);
    } else {
      var child := t.children[0];
      ItemsRoundTrip(schema, child, v.items, rest, fuel);
      VectorRoundTrip(schema, FullStoreClass(schema, child).value, FullFetchClass(schema, child).value, v, rest, fuel);
    }
  }

  ghost predicate ReturnsItems(schema: Schema, sc: StoreClass, fc: FetchClass, items: seq<Value>, rest: seq<byte>,
                               fuel: nat)
  {
    var b := StoreItems(schema, sc, items);
    && b.Some?
    && FetchItems(schema, fc, |items|, b.value + rest, fuel)
       == if FitsItems(schema, sc, items, |rest|) then Ok(NormalItems(items), rest) else Fail
  }

  ghost function NormalItems(items: seq<Value>): seq<Value>
  {
    seq(|items|, i requires 0 <= i < |items| => Normal(items[i]))
  }

  lemma VectorRoundTrip(schema: Schema, sc: StoreClass, fc: FetchClass, v: Value, rest: seq<byte>, fuel: nat)
    requires v.List? && |v.items| < 0x8000_0000 && ReturnsItems(schema, sc, fc, v.items, rest, fuel)
    ensures Returns(schema, StoreVector(sc), FetchVector(fc), v, rest, fuel)
  {
    hide LE, FetchWord, FetchItems, StoreItems, FitsItems;
    var b := StoreItems(schema, sc, v.items).value;
    FourBytes();
    WordRoundTrip(|v.items|, 4, b + rest);
    assert LE(|v.items|, 4) + b + rest == LE(|v.items|, 4) + (b + rest);
    assert Normal(v) == List(NormalItems(v.items));
  }

  lemma {:induction false} ItemsRoundTrip(schema: Schema, t: Tree, items: seq<Value>, rest: seq<byte>, fuel: nat)
    requires Accepted(schema) && forall i :: 0 <= i < |items| ==> Agree(schema, items[i], t)
    requires FullStoreClass(schema, t).Some? && FullFetchClass(schema, t).Some?
    requires (forall i :: 0 <= i < |items| ==> WellTyped(schema, items[i], t)) && DepthOf(items) <= fuel
    ensures ReturnsItems(schema, FullStoreClass(schema, t).value, FullFetchClass(schema, t).value, items, rest, fuel)
    decreases items, 6, 0
  {
    var sc, fc := FullStoreClass(schema, t).value, FullFetchClass(schema, t).value;
    if items == [] {
      assert StoreItems(schema, sc, items) == Some([]) && [] + rest == rest;
      assert NormalItems(items) == [];
    } else {
      hide Returns, ReturnsItems, Accepted, FullStoreClass, FullFetchClass;
      ItemsRoundTrip(schema, t, items[1..], rest, fuel);
      ItemsStored(schema, sc, fc, items[1..], rest, fuel);
      var tail := StoreItems(schema, sc, items[1..]).value;
      ValueRoundTrip(schema, t, items[0], tail + rest, fuel);
      ItemStep(schema, sc, fc, items, tail, rest, fuel);
    }
  }

  lemma ItemsStored(schema: Schema, sc: StoreClass, fc: FetchClass, items: seq<Value>, rest: seq<byte>, fuel: nat)
    requires ReturnsItems(schema, sc, fc, items, rest, fuel)
    ensures StoreItems(schema, sc, items).Some?
  {
    hide StoreItems, FetchItems, FitsItems, NormalItems;
  }

  lemma ItemStep(schema: Schema, sc: StoreClass, fc: FetchClass, items: seq<Value>, tail: seq<byte>, rest: seq<byte>,
                 fuel: nat)
    requires items != [] && StoreItems(schema, sc, items[1..]) == Some(tail)
    requires ReturnsItems(schema, sc, fc, items[1..], rest, fuel)
    requires Returns(schema, sc, fc, items[0], tail + rest, fuel)
    ensures ReturnsItems(schema, sc, fc, items, rest, fuel)
  {
    hide StoreValue, FetchValue, Fits, Normal, FetchItems, StoreItems, FitsItems, NormalItems;
    var head := StoreValue(schema, sc, items[0]).value;
    ItemsUnfold(schema, sc, items, tail, |rest|);
    assert head + tail + rest == head + (tail + rest);
    FetchOneMore(schema, fc, |items| - 1, head + (tail + rest), fuel);
  }

  /** Storing, fitting and the normal form go item by item. */
  lemma ItemsUnfold(schema: Schema, sc: StoreClass, items: seq<Value>, tail: seq<byte>, after: nat)
    requires items != [] && StoreItems(schema, sc, items[1..]) == Some(tail)
    ensures StoreItems(schema, sc, items) == Join(StoreValue(schema, sc, items[0]), Some(tail))
    ensures FitsItems(schema, sc, items, after)
            == (Fits(schema, sc, items[0], |tail| + after) && FitsItems(schema, sc, items[1..], after))
    ensures NormalItems(items) == [Normal(items[0])] + NormalItems(items[1..])
  {
    hide StoreValue, Fits, Normal;
  }

  lemma FetchOneMore(schema: Schema, fc: FetchClass, n: nat, b: seq<byte>, fuel: nat)
    ensures var first := FetchValue(schema, fc, b, fuel);
            FetchItems(schema, fc, n + 1, b, fuel)
            == if first.Ok? then Prepend(first.value, FetchItems(schema, fc, n, first.rest, fuel)) else Fail
  {
    hide FetchValue;
  }

  // ---------------------------------------------------------------------------------------------------------
  // Objects
  // ---------------------------------------------------------------------------------------------------------

  lemma AcceptedType(schema: Schema, name: TypeName, c: Combinator)
    requires Accepted(schema) && c in Constructors(schema, name) && Supported(c)
    ensures StoreRoutine(schema, c, 0, {}).Some? && FetchRoutine(schema, c, 0, {}).Some? && c.id < 0x1_0000_0000
    ensures var supported := SupportedOnly(Constructors(schema, name));
            c in supported && FindById(supported, c.id) == Some(c)
  {
    hide StoreRoutine, FetchRoutine, SupportedOnly, FindById, Supported, Constructors;
    var cs := Constructors(schema, name);
    assert DistinctIds(cs);
    var i :| 0 <= i < |cs| && cs[i] == c;
    SupportedIds(cs);
    FindsItself(SupportedOnly(cs), c);
  }

  lemma {:induction false} NamedRoundTrip(schema: Schema, t: Tree, sc: StoreClass, fc: FetchClass, v: Value,
                                          rest: seq<byte>, fuel: nat)
    requires Accepted(schema) && Agree(schema, v, t) && t.name.Named? && Paired(schema, t, sc, fc)
    requires WellTyped(schema, v, t) && Depth(v) <= fuel
    ensures Returns(schema, sc, fc, v, rest, fuel)
    decreases v, 4, 0
  {
    hide Accepted, Returns, ReturnsObject, StoreRoutine, FetchRoutine, FieldsTyped, Paired, FieldsAgree;
    AcceptedType(schema, t.name, v.c);
    ObjectRoundTrip(schema, v, rest, fuel - 1);
    if SimpleConstructors(schema, t.name) > 1 {
      DispatchRoundTrip(schema, t.name, v, rest, fuel);
      DispatchPair(schema, t, sc, fc);
    } else {
      ConstructorRoundTrip(schema, v, rest, fuel);
      var boxed, id := ConstructorPair(schema, t, sc, fc, v.c);
      if boxed { Boxed(schema, StoreObject, FetchConstructor(v.c), id, v, rest, fuel); }
    }
  }

  lemma DispatchPair(schema: Schema, t: Tree, sc: StoreClass, fc: FetchClass)
    requires t.name.Named? && SimpleConstructors(schema, t.name) > 1 && Paired(schema, t, sc, fc)
    ensures sc == StoreBoxedUnknown(StoreObject) && fc == FetchType(t.name)
  {
  }

  lemma ConstructorPair(schema: Schema, t: Tree, sc: StoreClass, fc: FetchClass, c: Combinator)
    returns (boxed: bool, id: nat)
    requires t.name.Named? && SimpleConstructors(schema, t.name) <= 1 && Paired(schema, t, sc, fc)
    requires c in SupportedOnly(Constructors(schema, t.name))
    ensures boxed ==> && id < 0x1_0000_0000 && sc == StoreBoxed(StoreObject, id)
                      && fc == FetchBoxed(FetchConstructor(c), id)
    ensures !boxed ==> sc == StoreObject && fc == FetchConstructor(c)
  {
    assert SupportedOnly(Constructors(schema, t.name)) == [c];
    assert StoreClassOf(schema, t) == Some(StoreObject) && FetchClassOf(schema, t) == Some(FetchConstructor(c));
    boxed, id := false, 0;
    if sc != StoreObject || fc != FetchConstructor(c) {
      boxed := true;
      id :| id < 0x1_0000_0000 && sc == StoreBoxed(StoreObject, id) && fc == FetchBoxed(FetchConstructor(c), id);
    }
  }

  lemma ConstructorRoundTrip(schema: Schema, v: Value, rest: seq<byte>, fuel: nat)
    requires v.Obj? && 0 < fuel && ReturnsObject(schema, v, rest, fuel - 1)
    ensures Returns(schema, StoreObject, FetchConstructor(v.c), v, rest, fuel)
  {
    hide StoreValue, FetchObject, Fits;
  }

  ghost predicate ReturnsObject(schema: Schema, v: Value, rest: seq<byte>, fuel: nat)
  {
    var b := StoreValue(schema, StoreObject, v);
    && b.Some?
    && FetchObject(schema, v.c, b.value + rest, fuel)
       == if Fits(schema, StoreObject, v, |rest|) then Ok(Normal(v), rest) else Fail
  }

  lemma DispatchRoundTrip(schema: Schema, name: TypeName, v: Value, rest: seq<byte>, fuel: nat)
    requires v.Obj? && 0 < fuel && v.c.id < 0x1_0000_0000 && ReturnsObject(schema, v, rest, fuel - 1)
    requires FindById(SupportedOnly(Constructors(schema, name)), v.c.id) == Some(v.c)
    ensures Returns(schema, StoreBoxedUnknown(StoreObject), FetchType(name), v, rest, fuel)
  {
    hide LE, FetchWord, FetchObject, FindById;
    var b := StoreValue(schema, StoreObject, v).value;
    FourBytes();
    WordRoundTrip(v.c.id, 4, b + rest);
    assert LE(v.c.id, 4) + b + rest == LE(v.c.id, 4) + (b + rest);
    assert StoreValue(schema, StoreBoxedUnknown(StoreObject), v) == Some(LE(v.c.id, 4) + b);
  }

  lemma {:induction false} ObjectRoundTrip(schema: Schema, v: Value, rest: seq<byte>, fuel: nat)
    requires Accepted(schema) && v.Obj? && |v.fields| == |v.c.args| && FieldsTyped(schema, v, 0, map[])
    requires FieldsAgree(schema, v, 0, map[])
    requires StoreRoutine(schema, v.c, 0, {}).Some? && FetchRoutine(schema, v.c, 0, {}).Some?
    requires DepthOf(v.fields) <= fuel
    ensures ReturnsObject(schema, v, rest, fuel)
    decreases v, 3, 0
  {
    hide StoreRoutine, FetchRoutine, FieldsTyped, Accepted, FieldsAgree;
    StmtsRoundTrip(schema, v, 0, {}, map[], rest, fuel);
    hide StoreStmts, FetchStmts, FitsStmts;
    assert Normal(v) == Obj(v.c, NormalFields(v, 0, map[]));
    hide NormalFields, Normal;
  }

  ghost predicate ReturnsFields(schema: Schema, ss: seq<StoreStmt>, fs: seq<FetchStmt>, v: Value, i: nat, env: Env,
                                rest: seq<byte>, fuel: nat)
    requires v.Obj? && i <= |v.c.args| == |v.fields|
  {
    var b := StoreStmts(schema, ss, v, env);
    && b.Some?
    && FetchStmts(schema, fs, b.value + rest, env, fuel)
       == if FitsStmts(schema, ss, v, env, |rest|) then Ok(NormalFields(v, i, env), rest) else Fail
  }

  /** What the types of the fields from `i` on say about field `i`. */
  lemma FieldTyped(schema: Schema, v: Value, i: nat, env: Env)
    requires v.Obj? && i < |v.c.args| == |v.fields| && FieldsTyped(schema, v, i, env)
    ensures var a := v.c.args[i];
            && a.Arg? && FieldsTyped(schema, v, i + 1, EnvAfter(v.c, v.fields, i, env))
            && (a.varNum.Some? ==>
                  && a.exist.None? && v.fields[i].Word?
                  && MergedFlags(v.c.args, v.fields, a.varNum.value, v.fields[i].bits, 0) < 0x1_0000_0000)
            && (a.varNum.None? && !IsTrueField(a) && Present(a.exist, env) ==> WellTyped(schema, v.fields[i], a.ty))
  {
    hide WellTyped, MergedFlags;
  }

  lemma FieldAgrees(schema: Schema, v: Value, i: nat, env: Env)
    requires v.Obj? && i < |v.c.args| == |v.fields| && FieldsAgree(schema, v, i, env)
    ensures var a := v.c.args[i];
            && FieldsAgree(schema, v, i + 1, EnvAfter(v.c, v.fields, i, env))
            && (a.Arg? && a.varNum.Some? ==> !BoxingClash(schema, a.ty))
            && (a.Arg? && a.varNum.None? && !IsTrueField(a) && Present(a.exist, env) ==>
                  Agree(schema, v.fields[i], a.ty))
  {
    hide Agree, BoxingClash;
  }

  /** A routine that exists from field `i` on exists from the next field on, and has classes for field `i`. */
  lemma RoutineParts(schema: Schema, c: Combinator, i: nat, stored: set<nat>)
    requires i < |c.args| && StoreRoutine(schema, c, i, stored).Some? && FetchRoutine(schema, c, i, stored).Some?
    ensures FieldStore(schema, c, i, stored).Some? && FieldFetch(schema, c, i, stored).Some?
    ensures StoreRoutine(schema, c, i + 1, VarsAfter(c.args[i], stored)).Some?
    ensures FetchRoutine(schema, c, i + 1, VarsAfter(c.args[i], stored)).Some?
    ensures var a := c.args[i];
            a.Arg? && !IsTrueField(a) ==> FullStoreClass(schema, a.ty).Some? && FullFetchClass(schema, a.ty).Some?
  {
    hide FullStoreClass, FullFetchClass, TrueFields, DefaultOf;
  }

  lemma EnvKeys(c: Combinator, fields: seq<Value>, i: nat, env: Env, stored: set<nat>)
    requires i < |c.args| == |fields| && env.Keys == stored
    requires c.args[i].Arg? && (c.args[i].varNum.Some? ==> fields[i].Word?)
    ensures EnvAfter(c, fields, i, env).Keys == VarsAfter(c.args[i], stored)
    ensures c.args[i].varNum.None? ==> EnvAfter(c, fields, i, env) == env && VarsAfter(c.args[i], stored) == stored
  {
  }

  lemma NoStmts(schema: Schema, v: Value, env: Env, rest: seq<byte>, fuel: nat)
    requires v.Obj? && |v.c.args| == |v.fields|
    ensures ReturnsFields(schema, [], [], v, |v.c.args|, env, rest, fuel)
  {
    assert [] + rest == rest;
  }

  lemma {:induction false} StmtsRoundTrip(schema: Schema, v: Value, i: nat, stored: set<nat>, env: Env, rest: seq<byte>,
                                          fuel: nat)
    requires Accepted(schema) && v.Obj? && i <= |v.c.args| == |v.fields|
    requires FieldsTyped(schema, v, i, env) && FieldsAgree(schema, v, i, env)
    requires StoreRoutine(schema, v.c, i, stored).Some? && FetchRoutine(schema, v.c, i, stored).Some?
    requires env.Keys == stored && DepthOf(v.fields) <= fuel
    ensures ReturnsFields(schema, StoreRoutine(schema, v.c, i, stored).value,
                          FetchRoutine(schema, v.c, i, stored).value,
                          v, i, env, rest, fuel)
    decreases v, 2, |v.c.args| - i
  {
    if i == |v.c.args| {
      hide Accepted, FieldsTyped;
      NoStmts(schema, v, env, rest, fuel);
    } else {
      hide Accepted, FieldsTyped, Returns, ReturnsFields, FullStoreClass, FullFetchClass, MergedFlags, StoreRoutine,
           FetchRoutine, FieldStore, FieldFetch, EnvAfter, VarsAfter, IsTrueField, Present, StoreStmts, WellTyped,
           FieldsAgree, Agree, BoxingClash;
      var a := v.c.args[i];
      FieldAgrees(schema, v, i, env);
      RoutineParts(schema, v.c, i, stored);
      FieldTyped(schema, v, i, env);
      EnvKeys(v.c, v.fields, i, env, stored);
      StmtsRoundTrip(schema, v, i + 1, VarsAfter(a, stored), EnvAfter(v.c, v.fields, i, env), rest, fuel);
      if IsTrueField(a) {
        TrueStmt(schema, v, i, stored, env, rest, fuel);
      } else if a.varNum.Some? {
        FlagsStmt(schema, v, i, stored, env, rest, fuel);
      } else {
        if Present(a.exist, env) {
          var tail := StoreStmts(schema, StoreRoutine(schema, v.c, i + 1, stored).value, v, env).value;
          ValueRoundTrip(schema, a.ty, v.fields[i], tail + rest, fuel);
        }
        FieldStmt(schema, v, i, stored, env, rest, fuel);
      }
    }
  }

  /** The situation in the middle of a routine: everything after field `i` is known to come back. */
  ghost predicate RestReturns(schema: Schema, v: Value, i: nat, stored: set<nat>, env: Env, rest: seq<byte>, fuel: nat)
  {
    && v.Obj? && i < |v.c.args| == |v.fields| && v.c.args[i].Arg? && env.Keys == stored
    && FieldStore(schema, v.c, i, stored).Some? && FieldFetch(schema, v.c, i, stored).Some?
    && var stored', env' := VarsAfter(v.c.args[i], stored), EnvAfter(v.c, v.fields, i, env);
       && StoreRoutine(schema, v.c, i + 1, stored').Some? && FetchRoutine(schema, v.c, i + 1, stored').Some?
       && ReturnsFields(schema, StoreRoutine(schema, v.c, i + 1, stored').value,
                        FetchRoutine(schema, v.c, i + 1, stored').value, v, i + 1, env', rest, fuel)
  }

  lemma TrueStep(schema: Schema, ss: seq<StoreStmt>, fs: seq<FetchStmt>, v: Value, i: nat, env: Env, rest: seq<byte>,
                 fuel: nat)
    requires v.Obj? && i < |v.c.args| == |v.fields| && IsTrueField(v.c.args[i])
    requires ss != [] && ss[0] == StoreNothing && fs != [] && fs[0] == FetchTrueBit(v.c.args[i].exist)
    requires ReturnsFields(schema, ss[1..], fs[1..], v, i + 1, env, rest, fuel)
    ensures ReturnsFields(schema, ss, fs, v, i, env, rest, fuel)
  {
    hide StoreValue, FetchValue, Fits, Normal, HasBit;
    var tail := StoreStmts(schema, ss[1..], v, env);
    assert StoreStmts(schema, ss, v, env) == tail;
    assert FitsStmts(schema, ss, v, env, |rest|) == FitsStmts(schema, ss[1..], v, env, |rest|);
    assert NormalFields(v, i, env) == [Truth(Present(v.c.args[i].exist, env))] + NormalFields(v, i + 1, env);
    assert FetchStmts(schema, fs, tail.value + rest, env, fuel)
           == Prepend(Truth(Present(v.c.args[i].exist, env)),
                      FetchStmts(schema, fs[1..], tail.value + rest, env, fuel));
  }

  lemma FieldStep(schema: Schema, ss: seq<StoreStmt>, fs: seq<FetchStmt>, sc: StoreClass, fc: FetchClass,
                  v: Value, i: nat, env: Env, rest: seq<byte>, fuel: nat)
    requires v.Obj? && i < |v.c.args| == |v.fields| && v.c.args[i].Arg?
    requires v.c.args[i].varNum.None? && !IsTrueField(v.c.args[i]) && Readable(v.c.args[i].exist, env)
    requires ss != [] && ss[0] == StoreField(i, v.c.args[i].exist, sc)
    requires fs != [] && fs[0] == FetchField(v.c.args[i].exist, fc, DefaultOf(v.c.args[i].ty.name))
    requires ReturnsFields(schema, ss[1..], fs[1..], v, i + 1, env, rest, fuel)
    requires Present(v.c.args[i].exist, env) ==>
               Returns(schema, sc, fc, v.fields[i], StoreStmts(schema, ss[1..], v, env).value + rest, fuel)
    ensures ReturnsFields(schema, ss, fs, v, i, env, rest, fuel)
  {
    hide StoreValue, FetchValue, Fits, Normal, HasBit, DefaultOf;
    var a := v.c.args[i];
    var tail := StoreStmts(schema, ss[1..], v, env).value;
    assert NormalFields(v, i, env) == [NormalField(v, i, env)] + NormalFields(v, i + 1, env);
    if Present(a.exist, env) {
      var head := StoreValue(schema, sc, v.fields[i]).value;
      assert StoreStmts(schema, ss, v, env) == Some(head + tail);
      assert head + tail + rest == head + (tail + rest);
      assert FitsStmts(schema, ss, v, env, |rest|)
             == (Fits(schema, sc, v.fields[i], |tail| + |rest|) && FitsStmts(schema, ss[1..], v, env, |rest|));
    } else {
      assert StoreStmts(schema, ss, v, env) == Some(tail);
      assert FitsStmts(schema, ss, v, env, |rest|) == FitsStmts(schema, ss[1..], v, env, |rest|);
      assert FetchStmts(schema, fs, tail + rest, env, fuel)
             == Prepend(DefaultOf(a.ty.name), FetchStmts(schema, fs[1..], tail + rest, env, fuel));
    }
  }

  lemma FlagsStep(schema: Schema, ss: seq<StoreStmt>, fs: seq<FetchStmt>, x: nat, merge: seq<(nat, nat)>,
                  v: Value, i: nat, env: Env, rest: seq<byte>, fuel: nat)
    requires v.Obj? && i < |v.c.args| == |v.fields| && v.c.args[i].Arg? && v.c.args[i].varNum == Some(x)
    requires v.fields[i].Word?
    requires ss != [] && ss[0] == StoreFlags(i, None, x, merge, StoreBinary)
    requires fs != [] && fs[0] == FetchFlags(None, x, FetchInt)
    requires Merge(v.fields, merge, v.fields[i].bits)
             == MergedFlags(v.c.args, v.fields, x, v.fields[i].bits, 0) < 0x1_0000_0000
    requires ReturnsFields(schema, ss[1..], fs[1..], v, i + 1, EnvAfter(v.c, v.fields, i, env), rest, fuel)
    ensures ReturnsFields(schema, ss, fs, v, i, env, rest, fuel)
  {
    hide StoreValue, Fits, Normal, HasBit, Merge, MergedFlags, LE, FetchWord, FetchNumber;
    var word := MergedFlags(v.c.args, v.fields, x, v.fields[i].bits, 0);
    var env' := env[x := word];
    assert EnvAfter(v.c, v.fields, i, env) == env';
    var tail := StoreStmts(schema, ss[1..], v, env').value;
    assert StoreStmts(schema, ss, v, env) == Some(LE(word, 4) + tail);
    assert LE(word, 4) + tail + rest == LE(word, 4) + (tail + rest);
    FourBytes();
    NumberRoundTrip(word, 4, tail + rest);
    assert FetchValue(schema, FetchInt, LE(word, 4) + (tail + rest), fuel) == Ok(Word(4, word), tail + rest);
    hide FetchValue;
    assert NormalFields(v, i, env) == [Word(4, word)] + NormalFields(v, i + 1, env');
    assert FitsStmts(schema, ss, v, env, |rest|) == (word < 0x8000_0000 && FitsStmts(schema, ss[1..], v, env', |rest|));
  }

  lemma TrueStmt(schema: Schema, v: Value, i: nat, stored: set<nat>, env: Env, rest: seq<byte>, fuel: nat)
    requires RestReturns(schema, v, i, stored, env, rest, fuel) && IsTrueField(v.c.args[i])
    ensures ReturnsFields(schema, StoreRoutine(schema, v.c, i, stored).value,
                          FetchRoutine(schema, v.c, i, stored).value,
                          v, i, env, rest, fuel)
  {
    hide FullStoreClass, FullFetchClass, ReturnsFields, StoreRoutine, FetchRoutine;
    var a := v.c.args[i];
    NoTrueClass(schema, a.ty);
    RoutineHeads(schema, v.c, i, stored);
    TrueStep(schema, StoreRoutine(schema, v.c, i, stored).value, FetchRoutine(schema, v.c, i, stored).value, v, i, env,
             rest, fuel);
  }

  lemma NoTrueClass(schema: Schema, t: Tree)
    requires t.name.True?
    ensures FullFetchClass(schema, t).None?
  {
  }

  lemma RoutineHeads(schema: Schema, c: Combinator, i: nat, stored: set<nat>)
    requires i < |c.args| && FieldStore(schema, c, i, stored).Some? && FieldFetch(schema, c, i, stored).Some?
    requires StoreRoutine(schema, c, i + 1, VarsAfter(c.args[i], stored)).Some?
    requires FetchRoutine(schema, c, i + 1, VarsAfter(c.args[i], stored)).Some?
    ensures StoreRoutine(schema, c, i, stored).Some? && FetchRoutine(schema, c, i, stored).Some?
    ensures var ss := StoreRoutine(schema, c, i, stored).value;
            ss != [] && ss[0] == FieldStore(schema, c, i, stored).value
            && ss[1..] == StoreRoutine(schema, c, i + 1, VarsAfter(c.args[i], stored)).value
    ensures var fs := FetchRoutine(schema, c, i, stored).value;
            fs != [] && fs[0] == FieldFetch(schema, c, i, stored).value
            && fs[1..] == FetchRoutine(schema, c, i + 1, VarsAfter(c.args[i], stored)).value
  {
    hide FieldStore, FieldFetch;
  }

  lemma FlagsStmt(schema: Schema, v: Value, i: nat, stored: set<nat>, env: Env, rest: seq<byte>, fuel: nat)
    requires Accepted(schema) && RestReturns(schema, v, i, stored, env, rest, fuel)
    requires !BoxingClash(schema, v.c.args[i].ty)
    requires v.c.args[i].varNum.Some? && v.c.args[i].exist.None? && v.fields[i].Word?
    requires MergedFlags(v.c.args, v.fields, v.c.args[i].varNum.value, v.fields[i].bits, 0) < 0x1_0000_0000
    ensures ReturnsFields(schema, StoreRoutine(schema, v.c, i, stored).value,
                          FetchRoutine(schema, v.c, i, stored).value,
                          v, i, env, rest, fuel)
  {
    var a := v.c.args[i];
    var x := a.varNum.value;
    FlagsClasses(schema, a.ty);
    MergeIsMergedFlags(v.c.args, v.fields, x, v.fields[i].bits, 0);
    RoutineHeads(schema, v.c, i, stored);
    hide FullStoreClass, FullFetchClass, Accepted, ReturnsFields, StoreRoutine, FetchRoutine, Merge, MergedFlags,
        TrueFields;
    FlagsStep(schema, StoreRoutine(schema, v.c, i, stored).value, FetchRoutine(schema, v.c, i, stored).value, x,
              TrueFields(v.c.args, x, 0), v, i, env, rest, fuel);
  }

  lemma FieldStmt(schema: Schema, v: Value, i: nat, stored: set<nat>, env: Env, rest: seq<byte>, fuel: nat)
    requires RestReturns(schema, v, i, stored, env, rest, fuel)
    requires v.c.args[i].varNum.None? && !IsTrueField(v.c.args[i])
    requires var a := v.c.args[i];
             Present(a.exist, env) ==>
               && FullStoreClass(schema, a.ty).Some? && FullFetchClass(schema, a.ty).Some?
               && var tail := StoreStmts(schema, StoreRoutine(schema, v.c, i + 1, stored).value, v, env).value;
                  Returns(schema, FullStoreClass(schema, a.ty).value, FullFetchClass(schema, a.ty).value, v.fields[i],
                          tail + rest, fuel)
    ensures ReturnsFields(schema, StoreRoutine(schema, v.c, i, stored).value,
                          FetchRoutine(schema, v.c, i, stored).value,
                          v, i, env, rest, fuel)
  {
    var a := v.c.args[i];
    RoutineHeads(schema, v.c, i, stored);
    hide FullStoreClass, FullFetchClass, ReturnsFields, Returns, StoreRoutine, FetchRoutine, StoreStmts, DefaultOf;
    var sc, fc := FullStoreClass(schema, a.ty).value, FullFetchClass(schema, a.ty).value;
    FieldStep(schema, StoreRoutine(schema, v.c, i, stored).value, FetchRoutine(schema, v.c, i, stored).value, sc, fc,
              v, i, env, rest, fuel);
  }

  // ---------------------------------------------------------------------------------------------------------
  // What happens where the generators disagree
  // ---------------------------------------------------------------------------------------------------------

  /** A use that clashes: the value is stored without a number and fetched with one, so whatever fetching returns, it
      has not left exactly what followed the value. */
  lemma ClashNeverReturns(schema: Schema, t: Tree, v: Value, rest: seq<byte>, fuel: nat, result: Value)
    requires BoxingClash(schema, t) && WellTyped(schema, v, t)
    requires FullStoreClass(schema, t).Some? && FullFetchClass(schema, t).Some?
    ensures var b := StoreValue(schema, FullStoreClass(schema, t).value, v);
            && b.Some? && |b.value| == 4
            && FetchValue(schema, FullFetchClass(schema, t).value, b.value + rest, fuel) != Ok(result, rest)
  {
    var id := ClashClasses(schema, t);
    hide FullStoreClass, FullFetchClass, WellTyped, LE;
    var b := StoreValue(schema, FullStoreClass(schema, t).value, v).value;
    var inner := if t.name.Nat? then FetchInt else FetchBool;
    BoxedTakesEight(schema, inner, id, b + rest, fuel);
  }

  lemma ClashClasses(schema: Schema, t: Tree) returns (id: nat)
    requires BoxingClash(schema, t) && FullStoreClass(schema, t).Some? && FullFetchClass(schema, t).Some?
    ensures FullStoreClass(schema, t).value == if t.name.Nat? then StoreBinary else StoreBool
    ensures FullFetchClass(schema, t).value == FetchBoxed(if t.name.Nat? then FetchInt else FetchBool, id)
  {
    CandidatesAreSupported(Constructors(schema, t.name));
    id := SupportedOnly(Constructors(schema, t.name))[0].id;
  }

  lemma BoxedTakesEight(schema: Schema, inner: FetchClass, id: nat, b: seq<byte>, fuel: nat)
    requires inner.FetchInt? || inner.FetchBool?
    ensures var r := FetchValue(schema, FetchBoxed(inner, id), b, fuel); r.Ok? ==> |r.rest| + 8 == |b|
  {
    hide FromLE;
  }

  /** A schema that both generators accept and in which a field clashes: one constructor of `Bool`, and a constructor
      with a boxed `Bool` field. Objects of the latter are stored and never fetched. */
  lemma ClashingSchema(c: Combinator, id: nat, b: bool, rest: seq<byte>, fuel: nat, result: Value)
    requires c.args == [] && c.varCount == 0 && !c.complex && c.id != 0
    ensures var t := Tree(false, Bool, []);
            var d := Combinator(id, 0, [Arg(None, None, t)], false);
            var schema := map[Bool := [c], Named(0) := [d]];
            var v := Obj(d, [Truth(b)]);
            && StoreRoutine(schema, c, 0, {}) == Some([]) && FetchRoutine(schema, c, 0, {}) == Some([])
            && StoreRoutine(schema, d, 0, {}) == Some([StoreField(0, None, StoreBool)])
            && FetchRoutine(schema, d, 0, {}) == Some([FetchField(None, FetchBoxed(FetchBool, c.id), Truth(false))])
            && WellTyped(schema, v, Tree(true, Named(0), [])) && BoxingClash(schema, t)
            && StoreValue(schema, StoreObject, v).Some?
            && FetchObject(schema, d, StoreValue(schema, StoreObject, v).value + rest, fuel) != Ok(result, rest)
  {
    var t := Tree(false, Bool, []);
    var d := Combinator(id, 0, [Arg(None, None, t)], false);
    var schema := map[Bool := [c], Named(0) := [d]];
    var v := Obj(d, [Truth(b)]);
    OneConstructor(c);
    assert Constructors(schema, Bool) == [c];
    assert BoxingClash(schema, t);
    ClashRoutines(schema, c, d, t);
    ClashTyped(schema, d, v);
    hide StoreRoutine, FetchRoutine, LE, WellTyped, SupportedOnly;
    var ss, fs := [StoreField(0, None, StoreBool)], [FetchField(None, FetchBoxed(FetchBool, c.id), Truth(false))];
    assert ss[1..] == [] && fs[1..] == [];
    var stored := StoreValue(schema, StoreBool, Truth(b)).value;
    assert StoreStmts(schema, ss[1..], v, map[]) == Some([]);
    assert StoreStmts(schema, ss, v, map[]) == Some(stored + []);
    assert stored + [] == stored;
    var bytes := stored + rest;
    BoxedTakesEight(schema, FetchBool, c.id, bytes, fuel);
    var first := FetchValue(schema, FetchBoxed(FetchBool, c.id), bytes, fuel);
    if first.Ok? {
      assert FetchStmts(schema, fs[1..], first.rest, map[], fuel) == Ok([], first.rest);
    }
  }

  lemma OneConstructor(c: Combinator)
    requires Supported(c)
    ensures SupportedOnly([c]) == [c] && CandidateIds([c], false) == [c.id]
  {
    assert [c][1..] == [];
  }

  lemma ClashRoutines(schema: Schema, c: Combinator, d: Combinator, t: Tree)
    requires Constructors(schema, Bool) == [c] && Supported(c) && c.id != 0 && c.args == [] && c.varCount == 0
    requires t == Tree(false, Bool, []) && d.args == [Arg(None, None, t)] && d.varCount == 0
    ensures StoreRoutine(schema, c, 0, {}) == Some([]) && FetchRoutine(schema, c, 0, {}) == Some([])
    ensures StoreRoutine(schema, d, 0, {}) == Some([StoreField(0, None, StoreBool)])
    ensures FetchRoutine(schema, d, 0, {}) == Some([FetchField(None, FetchBoxed(FetchBool, c.id), Truth(false))])
  {
    OneConstructor(c);
    assert FullStoreClass(schema, t) == Some(StoreBool);
    assert FullFetchClass(schema, t) == Some(FetchBoxed(FetchBool, c.id));
    assert StoreRoutine(schema, d, 1, {}) == Some([]) && FetchRoutine(schema, d, 1, {}) == Some([]);
    assert VarsAfter(d.args[0], {}) == {};
    var store, fetch := StoreField(0, None, StoreBool), FetchField(None, FetchBoxed(FetchBool, c.id), Truth(false));
    assert FieldStore(schema, d, 0, {}) == Some(store) && FieldFetch(schema, d, 0, {}) == Some(fetch);
    assert [store] + [] == [store] && [fetch] + [] == [fetch];
  }

  lemma ClashTyped(schema: Schema, d: Combinator, v: Value)
    requires Constructors(schema, Named(0)) == [d] && Supported(d) && v.Obj? && v.c == d && |v.fields| == 1
    requires d.args == [Arg(None, None, Tree(false, Bool, []))] && v.fields[0].Truth?
    ensures WellTyped(schema, v, Tree(true, Named(0), []))
  {
    assert FieldsTyped(schema, v, 1, map[]);
    assert EnvAfter(d, v.fields, 0, map[]) == map[];
    assert FieldsTyped(schema, v, 0, map[]);
  }

  // ---------------------------------------------------------------------------------------------------------
  // What the normal form and the extra checks mean
  // ---------------------------------------------------------------------------------------------------------

  lemma {:induction false} HalfBit(word: nat, bit: nat)
    ensures HasBit(word, bit + 1) == HasBit(word / 2, bit)
  {
    assert Pow2(bit + 1) == 2 * Pow2(bit);
    DivDiv(word, Pow2(bit));
  }

  lemma DivDiv(n: nat, m: nat)
    requires 0 < m
    ensures n / (2 * m) == n / 2 / m
  {
    var q, r := n / 2 / m, n / 2 % m;
    assert n / 2 == m * q + r;
    assert n == (2 * m) * q + (2 * r + n % 2) by { assert 2 * (m * q) == (2 * m) * q; }
    DivModUnique(n, 2 * m, q, 2 * r + n % 2);
  }

  /** Adding a power of two above the lowest bit is adding the next smaller one to the half. */
  lemma HalfSum(word: nat, bit: nat)
    requires 0 < bit
    ensures (word + Pow2(bit)) / 2 == word / 2 + Pow2(bit - 1) && (word + Pow2(bit)) % 2 == word % 2
  {
    var p := Pow2(bit - 1);
    assert Pow2(bit) == 2 * p;
  }

  lemma LowestBit(word: nat)
    ensures Pow2(0) == 1 && (HasBit(word, 0) <==> word % 2 == 1)
  {
  }

  /** Setting a bit sets that bit and no other. */
  lemma {:induction false} SetBitSets(word: nat, bit: nat, other: nat)
    ensures HasBit(SetBit(word, bit), other) <==> other == bit || HasBit(word, other)
  {
    if !HasBit(word, bit) { AddBitSets(word, bit, other); }
  }

  lemma {:induction false} AddBitSets(word: nat, bit: nat, other: nat)
    requires !HasBit(word, bit)
    ensures HasBit(word + Pow2(bit), other) <==> other == bit || HasBit(word, other)
    decreases bit
  {
    hide HasBit, Pow2;
    LowestBit(word);
    LowestBit(word + Pow2(bit));
    if bit == 0 {
      if other > 0 {
        HalfBit(word, other - 1);
        HalfBit(word + 1, other - 1);
      }
    } else {
      HalfSum(word, bit);
      if other > 0 {
        HalfBit(word, bit - 1);
        AddBitSets(word / 2, bit - 1, other - 1);
        HalfBit(word, other - 1);
        HalfBit(word + Pow2(bit), other - 1);
      }
    }
  }

  ghost predicate TrueAt(args: seq<Arg>, fields: seq<Value>, v: nat, bit: nat, k: nat)
    requires k < |args| == |fields|
  {
    var a := args[k];
    a.Arg? && a.exist == Some(Cond(v, bit)) && a.ty.name.True? && fields[k] == Truth(true)
  }

  /** A bit of the stored flags word is set exactly if it was set in the object's own flags field or one of the `True`
      fields of that bit is true. */
  lemma {:induction false} MergedBits(args: seq<Arg>, fields: seq<Value>, v: nat, word: nat, i: nat, bit: nat)
    requires i <= |args| == |fields|
    ensures HasBit(MergedFlags(args, fields, v, word, i), bit) <==>
              HasBit(word, bit) || exists k :: i <= k < |args| && TrueAt(args, fields, v, bit, k)
    decreases |args| - i
  {
    if i < |args| {
      var a := args[i];
      if a.Arg? && a.exist.Some? && a.exist.value.v == v && a.ty.name.True? && fields[i] == Truth(true) {
        var b := a.exist.value.bit;
        MergedBits(args, fields, v, SetBit(word, b), i + 1, bit);
        SetBitSets(word, b, bit);
        assert TrueAt(args, fields, v, b, i);
      } else {
        MergedBits(args, fields, v, word, i + 1, bit);
        assert !TrueAt(args, fields, v, bit, i);
      }
    }
  }

  /** A stored value takes at least one byte unless it is an object without a number in front. */
  lemma TakesSpace(schema: Schema, t: Tree, v: Value)
    requires WellTyped(schema, v, t) && FullStoreClass(schema, t).Some?
    requires FullStoreClass(schema, t).value != StoreObject
    requires StoreValue(schema, FullStoreClass(schema, t).value, v).Some?
    ensures 1 <= |StoreValue(schema, FullStoreClass(schema, t).value, v).value|
  {
    hide LE, WellTyped;
    assert !t.name.Named? && WidthOf(t.name) != 0 ==> v.width >= 1 by { WidthPositive(schema, t, v); }
    StringPositive(v);
  }

  lemma WidthPositive(schema: Schema, t: Tree, v: Value)
    requires WellTyped(schema, v, t)
    ensures WidthOf(t.name) != 0 ==> v.Word? && v.width >= 1
  {
  }

  lemma StringPositive(v: Value)
    ensures v.Text? && |v.text| < 0x1_0000_0000 ==> 1 <= |StoreString(v.text)|
  {
    hide LE;
  }

  /** The length check refuses no vector of anything but bare objects. */
  lemma {:induction false} BoxedItemsFit(schema: Schema, t: Tree, items: seq<Value>)
    requires FullStoreClass(schema, t).Some? && FullStoreClass(schema, t).value != StoreObject
    requires forall i :: 0 <= i < |items| ==> WellTyped(schema, items[i], t)
    requires StoreItems(schema, FullStoreClass(schema, t).value, items).Some?
    ensures |items| <= Size(StoreItems(schema, FullStoreClass(schema, t).value, items))
  {
    hide FullStoreClass, WellTyped, StoreValue;
    if items != [] {
      BoxedItemsFit(schema, t, items[1..]);
      TakesSpace(schema, t, items[0]);
    }
  }

  /** The vectors it does refuse: objects without fields are stored in no bytes, so a vector of `n` of them comes back
      only if at least `n` other bytes happen to follow it. */
  lemma EmptyItemsRefused(schema: Schema, c: Combinator, n: nat, rest: seq<byte>, fuel: nat)
    requires c.args == [] && c.varCount == 0 && 0 < fuel && n < 0x8000_0000
    ensures var v := List(seq(n, i => Obj(c, [])));
            && StoreValue(schema, StoreVector(StoreObject), v) == Some(LE(n, 4))
            && FetchValue(schema, FetchVector(FetchConstructor(c)), LE(n, 4) + rest, fuel)
               == if n <= |rest| then Ok(v, rest) else Fail
  {
    hide LE, FetchWord, FetchItems, StoreItems;
    var items := seq(n, i => Obj(c, []));
    EmptyItems(schema, c, items, rest, fuel);
    FourBytes();
    WordRoundTrip(n, 4, rest);
    assert LE(n, 4) + [] == LE(n, 4);
  }

  lemma {:induction false} EmptyItems(schema: Schema, c: Combinator, items: seq<Value>, rest: seq<byte>, fuel: nat)
    requires c.args == [] && c.varCount == 0 && 0 < fuel && forall i :: 0 <= i < |items| ==> items[i] == Obj(c, [])
    ensures StoreItems(schema, StoreObject, items) == Some([])
    ensures FetchItems(schema, FetchConstructor(c), |items|, rest, fuel) == Ok(items, rest)
  {
    if items != [] {
      EmptyItems(schema, c, items[1..], rest, fuel);
      EmptyItem(schema, c, rest, fuel);
      var none: seq<byte> := [];
      assert none + none == none && items == [Obj(c, [])] + items[1..];
    }
  }

  lemma EmptyItem(schema: Schema, c: Combinator, rest: seq<byte>, fuel: nat)
    requires c.args == [] && c.varCount == 0 && 0 < fuel
    ensures StoreValue(schema, StoreObject, Obj(c, [])) == Some([])
    ensures FetchValue(schema, FetchConstructor(c), rest, fuel) == Ok(Obj(c, []), rest)
  {
    assert StoreRoutine(schema, c, 0, {}) == Some([]) && FetchRoutine(schema, c, 0, {}) == Some([]);
    assert StoreStmts(schema, [], Obj(c, []), map[]) == Some([]);
    assert FetchStmts(schema, [], rest, map[], fuel - 1) == Ok([], rest);
  }
}
