/** The serializer generator: from the schema it emits, for every combinator, a store routine and a fetch routine.
    The emitted text is represented by its syntax tree. A generator assertion that fails is `None`. */
module TlGenerator {
  import opened Options
  import opened TlSchema

  /** The class a fetch routine calls; an object is fetched by the class of its only constructor or by the class of
      its type, which reads the constructor identifier first. */
  datatype FetchClass = FetchInt | FetchLong | FetchDouble | FetchInt128 | FetchInt256 | FetchInt512 | FetchBool
                      | FetchString | FetchVector(item: FetchClass) | FetchConstructor(c: Combinator)
                      | FetchType(name: TypeName) | FetchBoxed(inner: FetchClass, id: nat)

  datatype StoreClass = StoreBinary | StoreBool | StoreText | StoreVector(item: StoreClass) | StoreObject
                      | StoreBoxed(inner: StoreClass, id: nat) | StoreBoxedUnknown(inner: StoreClass)

  // ---------------------------------------------------------------------------------------------------------
  // Boxing
  // ---------------------------------------------------------------------------------------------------------

  /** How the identifier of a value's constructor travels: not at all or inside the value's own encoding, as a fixed
      number, or as the number of whatever constructor the object has. */
  datatype Boxing = Plain | Fixed(id: nat) | Dynamic

  /** The identifiers the fetch generator considers for a boxed use of a type that could be bare. */
  function CandidateIds(cs: seq<Combinator>, all: bool): seq<nat>
  {
    if cs == [] then []
    else (if all || Supported(cs[0]) then [cs[0].id] else []) + CandidateIds(cs[1..], all)
  }

  function FetchBoxing(schema: Schema, t: Tree): Option<Boxing>
  {
    if t.bare then (if TypeBare(schema, t.name) then Some(Plain) else None)
    else if TypeBare(schema, t.name) then
      var ids := CandidateIds(Constructors(schema, t.name), BuiltInComplex(t.name));
      if ids == [] then Some(Plain)
      else if |ids| == 1 && ids[0] != 0 then Some(Fixed(ids[0]))
      else None
    else if t.name.Named? then Some(Dynamic)
    else Some(Plain)
  }

  function StoreBoxing(schema: Schema, t: Tree): Option<Boxing>
  {
    var cs := Constructors(schema, t.name);
    if t.bare || t.name.Nat? || t.name.Bool? then Some(Plain)
    else if BuiltInComplex(t.name) then (if cs != [] then Some(Fixed(cs[0].id)) else None)
    else if !TypeBare(schema, t.name) then Some(Dynamic)
    else
      var supported := SupportedOnly(cs);
      if supported != [] then Some(Fixed(supported[0].id)) else None
  }

  // ---------------------------------------------------------------------------------------------------------
  // Class names
  // ---------------------------------------------------------------------------------------------------------

  function MainClass(schema: Schema, name: TypeName): FetchClass
  {
    var supported := SupportedOnly(Constructors(schema, name));
    if |supported| == 1 then FetchConstructor(supported[0]) else FetchType(name)
  }

  /** There is no class for fetching a value of type `True`. */
  function FetchClassOf(schema: Schema, t: Tree): Option<FetchClass>
    decreases t, 0
  {
    match t.name
    case Nat => Some(FetchInt)
    case Int => Some(FetchInt)
    case Int32 => Some(FetchInt)
    case Int53 => Some(FetchLong)
    case Int64 => Some(FetchLong)
    case Long => Some(FetchLong)
    case Double => Some(FetchDouble)
    case Int128 => Some(FetchInt128)
    case Int256 => Some(FetchInt256)
    case Int512 => Some(FetchInt512)
    case Bool => Some(FetchBool)
    case True => None
    case Vector =>
      if |t.children| != 1 then None
      else
        (match FullFetchClass(schema, t.children[0])
         case None => None
         case Some(item) => Some(FetchVector(item)))
    case Named(_) => if t.children == [] then Some(MainClass(schema, t.name)) else None
    case _ => Some(FetchString)
  }

  function FullFetchClass(schema: Schema, t: Tree): Option<FetchClass>
    decreases t, 1
  {
    match (FetchBoxing(schema, t), FetchClassOf(schema, t))
    case (Some(Fixed(id)), Some(inner)) => Some(FetchBoxed(inner, id))
    case (Some(_), Some(inner)) => Some(inner)
    case _ => None
  }

  function StoreClassOf(schema: Schema, t: Tree): Option<StoreClass>
    decreases t, 0
  {
    if WidthOf(t.name) != 0 then Some(StoreBinary)
    else if t.name.Bool? then Some(StoreBool)
    else if t.name.True? then None
    else if IsString(t.name) then Some(StoreText)
    else if t.name.Vector? then
      if |t.children| != 1 then None
      else
        (match FullStoreClass(schema, t.children[0])
         case None => None
         case Some(item) => Some(StoreVector(item)))
    else if t.children == [] then Some(StoreObject) else None
  }

  function FullStoreClass(schema: Schema, t: Tree): Option<StoreClass>
    decreases t, 1
  {
    match (StoreBoxing(schema, t), StoreClassOf(schema, t))
    case (Some(Plain), Some(inner)) => Some(inner)
    case (Some(Fixed(id)), Some(inner)) => Some(StoreBoxed(inner, id))
    case (Some(Dynamic), Some(inner)) => Some(StoreBoxedUnknown(inner))
    case _ => None
  }

  // ---------------------------------------------------------------------------------------------------------
  // Field statements
  // ---------------------------------------------------------------------------------------------------------

  /** A `True` field needs no statement in a store routine; a flags word is merged with the listed fields, each
      shifted to its bit, before it is stored. */
  datatype StoreStmt = StoreNothing
                     | StoreField(field: nat, cond: Option<Cond>, cls: StoreClass)
                     | StoreFlags(field: nat, cond: Option<Cond>, v: nat, merge: seq<(nat, nat)>, cls: StoreClass)

  datatype FetchStmt = FetchTrueBit(cond: Option<Cond>)
                     | FetchField(cond: Option<Cond>, cls: FetchClass, absent: Value)
                     | FetchFlags(cond: Option<Cond>, v: nat, cls: FetchClass)

  /** The `True` fields whose bit belongs to variable `v`, with their bits, from field `i` on. */
  function TrueFields(args: seq<Arg>, v: nat, i: nat): seq<(nat, nat)>
    requires i <= |args|
    decreases |args| - i
  {
    if i == |args| then []
    else
      var a := args[i];
      (if a.Arg? && a.exist.Some? && a.exist.value.v == v && a.ty.name.True? then [(i, a.exist.value.bit)] else [])
      + TrueFields(args, v, i + 1)
  }

  predicate CondReady(exist: Option<Cond>, stored: set<nat>)
  {
    exist.None? || exist.value.v in stored
  }

  function VarsAfter(a: Arg, stored: set<nat>): set<nat>
  {
    if a.Arg? && a.varNum.Some? then stored + {a.varNum.value} else stored
  }

  function FieldStore(schema: Schema, c: Combinator, i: nat, stored: set<nat>): Option<StoreStmt>
    requires i < |c.args|
  {
    var a := c.args[i];
    if a.Generic? || !CondReady(a.exist, stored) then None
    else if IsTrueField(a) then Some(StoreNothing)
    else
      match FullStoreClass(schema, a.ty)
      case None => None
      case Some(cls) =>
        if a.varNum.None? then Some(StoreField(i, a.exist, cls))
        else if a.ty.name.Nat? && a.varNum.value < c.varCount && a.varNum.value !in stored then
          Some(StoreFlags(i, a.exist, a.varNum.value, TrueFields(c.args, a.varNum.value, 0), cls))
        else None
  }

  function FieldFetch(schema: Schema, c: Combinator, i: nat, stored: set<nat>): Option<FetchStmt>
    requires i < |c.args|
  {
    var a := c.args[i];
    if a.Generic? || !CondReady(a.exist, stored) then None
    else if IsTrueField(a) && a.ty.bare then
      if TypeBare(schema, True) then Some(FetchTrueBit(a.exist)) else None
    else
      match FullFetchClass(schema, a.ty)
      case None => None
      case Some(cls) =>
        if a.varNum.None? then Some(FetchField(a.exist, cls, DefaultOf(a.ty.name)))
        else if a.ty.name.Nat? && a.varNum.value < c.varCount && a.varNum.value !in stored then
          Some(FetchFlags(a.exist, a.varNum.value, cls))
        else None
  }

  /** The store routine of a combinator from field `i` on, when the variables `stored` have a value already. */
  function StoreRoutine(schema: Schema, c: Combinator, i: nat, stored: set<nat>): Option<seq<StoreStmt>>
    requires i <= |c.args|
    decreases |c.args| - i
  {
    if i == |c.args| then
      if forall v :: 0 <= v < c.varCount ==> v in stored then Some([]) else None
    else
      match (FieldStore(schema, c, i, stored), StoreRoutine(schema, c, i + 1, VarsAfter(c.args[i], stored)))
      case (Some(stmt), Some(rest)) => Some([stmt] + rest)
      case _ => None
  }

  function FetchRoutine(schema: Schema, c: Combinator, i: nat, stored: set<nat>): Option<seq<FetchStmt>>
    requires i <= |c.args|
    decreases |c.args| - i
  {
    if i == |c.args| then
      if forall v :: 0 <= v < c.varCount ==> v in stored then Some([]) else None
    else
      match (FieldFetch(schema, c, i, stored), FetchRoutine(schema, c, i + 1, VarsAfter(c.args[i], stored)))
      case (Some(stmt), Some(rest)) => Some([stmt] + rest)
      case _ => None
  }

  // ---------------------------------------------------------------------------------------------------------
  // The two generators agree on boxing
  // ---------------------------------------------------------------------------------------------------------

  lemma {:induction false} CandidatesAreSupported(cs: seq<Combinator>)
    ensures |CandidateIds(cs, false)| == |SupportedOnly(cs)|
    ensures forall i :: 0 <= i < |SupportedOnly(cs)| ==> CandidateIds(cs, false)[i] == SupportedOnly(cs)[i].id
  {
    if cs != [] { CandidatesAreSupported(cs[1..]); }
  }

  lemma {:induction false} AllCandidates(cs: seq<Combinator>)
    ensures |CandidateIds(cs, true)| == |cs|
    ensures forall i :: 0 <= i < |cs| ==> CandidateIds(cs, true)[i] == cs[i].id
  {
    if cs != [] { AllCandidates(cs[1..]); }
  }

  /** The one way to make the generators disagree: a boxed use of `#` or `Bool` while exactly one constructor of that
      type is supported. The fetch routine then expects a number the store routine does not write. */
  predicate BoxingClash(schema: Schema, t: Tree)
  {
    !t.bare && (t.name.Nat? || t.name.Bool?) && SimpleConstructors(schema, t.name) == 1
  }

  /** When neither generator rejects a type, they choose the same boxing exactly outside that case. */
  lemma SameBoxing(schema: Schema, t: Tree)
    requires FetchBoxing(schema, t).Some? && StoreBoxing(schema, t).Some?
    ensures FetchBoxing(schema, t) == StoreBoxing(schema, t) <==> !BoxingClash(schema, t)
  {
    CandidatesAreSupported(Constructors(schema, t.name));
    AllCandidates(Constructors(schema, t.name));
  }
}
