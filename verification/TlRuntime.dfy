/** What the emitted routines do when they run, and that fetching undoes storing. */
module TlRuntime {
  import opened Bytes
  import opened Options
  import opened TlCodec
  import opened TlSchema
  import opened TlGenerator

  const BOOL_FALSE_ID: nat := 0xbc799737
  const BOOL_TRUE_ID: nat := 0x997275b5

  // ---------------------------------------------------------------------------------------------------------
  // Running a store routine
  // ---------------------------------------------------------------------------------------------------------

  function Join(a: Option<seq<byte>>, b: Option<seq<byte>>): Option<seq<byte>>
  {
    if a.Some? && b.Some? then Some(a.value + b.value) else None
  }

  /** `None` stands for a value the class cannot be applied to. */
  function StoreValue(schema: Schema, cls: StoreClass, v: Value): Option<seq<byte>>
    decreases v, 2, cls
  {
    match cls
    case StoreBinary => if v.Word? then Some(LE(v.bits, v.width)) else None
    case StoreBool => if v.Truth? then Some(LE(if v.b then BOOL_TRUE_ID else BOOL_FALSE_ID, 4)) else None
    case StoreText => if v.Text? && |v.text| < 0x1_0000_0000 then Some(StoreString(v.text)) else None
    case StoreVector(item) =>
      if v.List? && |v.items| < 0x8000_0000 then Join(Some(LE(|v.items|, 4)), StoreItems(schema, item, v.items))
      else None
    case StoreObject =>
      if v.Obj? then
        var routine := StoreRoutine(schema, v.c, 0, {});
        if routine.Some? then StoreStmts(schema, routine.value, v, map[]) else None
      else None
    case StoreBoxed(inner, id) => Join(Some(LE(id, 4)), StoreValue(schema, inner, v))
    case StoreBoxedUnknown(inner) =>
      if v.Obj? then Join(Some(LE(v.c.id, 4)), StoreValue(schema, inner, v)) else None
  }

  function StoreItems(schema: Schema, cls: StoreClass, items: seq<Value>): Option<seq<byte>>
    decreases items, 3, cls
  {
    if items == [] then Some([])
    else Join(StoreValue(schema, cls, items[0]), StoreItems(schema, cls, items[1..]))
  }

  function Merge(fields: seq<Value>, merge: seq<(nat, nat)>, word: nat): nat
  {
    if merge == [] then word
    else
      var on := merge[0].0 < |fields| && fields[merge[0].0] == Truth(true);
      Merge(fields, merge[1..], if on then SetBit(word, merge[0].1) else word)
  }

  predicate Readable(cond: Option<Cond>, env: Env)
  {
    cond.None? || cond.value.v in env
  }

  function StoreStmts(schema: Schema, routine: seq<StoreStmt>, v: Value, env: Env): Option<seq<byte>>
    requires v.Obj?
    decreases v, 1, |routine|
  {
    if routine == [] then Some([])
    else
      match routine[0]
      case StoreNothing => StoreStmts(schema, routine[1..], v, env)
      case StoreField(f, cond, cls) =>
        if f >= |v.fields| || !Readable(cond, env) then None
        else if !Present(cond, env) then StoreStmts(schema, routine[1..], v, env)
        else Join(StoreValue(schema, cls, v.fields[f]), StoreStmts(schema, routine[1..], v, env))
      case StoreFlags(f, cond, x, merge, cls) =>
        if f >= |v.fields| || !v.fields[f].Word? || !Readable(cond, env) || !cls.StoreBinary? then None
        else if !Present(cond, env) then StoreStmts(schema, routine[1..], v, env - {x})
        else
          var word := Merge(v.fields, merge, v.fields[f].bits);
          Join(Some(LE(word, 4)), StoreStmts(schema, routine[1..], v, env[x := word]))
  }

  // ---------------------------------------------------------------------------------------------------------
  // Running a fetch routine
  // ---------------------------------------------------------------------------------------------------------

  function FetchNumber(b: seq<byte>, width: nat): Parsed<Value>
  {
    match FetchWord(b, width)
    case Fail => Fail
    case Ok(n, rest) => Ok(Word(width, n), rest)
  }

  function FindById(cs: seq<Combinator>, id: nat): Option<Combinator>
  {
    if cs == [] then None else if cs[0].id == id then Some(cs[0]) else FindById(cs[1..], id)
  }

  /** `fuel` bounds the nesting of objects. */
  function FetchValue(schema: Schema, cls: FetchClass, b: seq<byte>, fuel: nat): Parsed<Value>
    decreases fuel, 0, cls, 0
  {
    match cls
    case FetchInt => FetchNumber(b, 4)
    case FetchLong => FetchNumber(b, 8)
    case FetchDouble => FetchNumber(b, 8)
    case FetchInt128 => FetchNumber(b, 16)
    case FetchInt256 => FetchNumber(b, 32)
    case FetchInt512 => FetchNumber(b, 64)
    case FetchBool =>
      (match FetchWord(b, 4)
       case Fail => Fail
       case Ok(n, rest) =>
         if n == BOOL_TRUE_ID then Ok(Truth(true), rest)
         else if n == BOOL_FALSE_ID then Ok(Truth(false), rest)
         else Fail)
    case FetchString =>
      (match TlCodec.FetchString(b)
       case Fail => Fail
       case Ok(s, rest) => Ok(Text(s), rest))
    case FetchVector(item) =>
      (match FetchWord(b, 4)
       case Fail => Fail
       case Ok(n, rest) =>
         if |rest| < n then Fail
         else
           match FetchItems(schema, item, n, rest, fuel)
           case Fail => Fail
           case Ok(items, end) => Ok(List(items), end))
    case FetchConstructor(c) => if fuel == 0 then Fail else FetchObject(schema, c, b, fuel - 1)
    case FetchType(name) =>
      (match FetchWord(b, 4)
       case Fail => Fail
       case Ok(id, rest) =>
         match FindById(SupportedOnly(Constructors(schema, name)), id)
         case None => Fail
         case Some(c) => if fuel == 0 then Fail else FetchObject(schema, c, rest, fuel - 1))
    case FetchBoxed(inner, id) =>
      (match FetchWord(b, 4)
       case Fail => Fail
       case Ok(n, rest) => if n != id then Fail else FetchValue(schema, inner, rest, fuel))
  }

  function FetchItems(schema: Schema, cls: FetchClass, n: nat, b: seq<byte>, fuel: nat): Parsed<seq<Value>>
    decreases fuel, 0, cls, n + 1
  {
    if n == 0 then Ok([], b)
    else
      match FetchValue(schema, cls, b, fuel)
      case Fail => Fail
      case Ok(v, rest) =>
        match FetchItems(schema, cls, n - 1, rest, fuel)
        case Fail => Fail
        case Ok(vs, end) => Ok([v] + vs, end)
  }

  function FetchObject(schema: Schema, c: Combinator, b: seq<byte>, fuel: nat): Parsed<Value>
    decreases fuel, 2
  {
    var routine := FetchRoutine(schema, c, 0, {});
    if routine.None? then Fail
    else
      match FetchStmts(schema, routine.value, b, map[], fuel)
      case Fail => Fail
      case Ok(fields, rest) => Ok(Obj(c, fields), rest)
  }

  /** The fields the statements leave behind. */
  function FetchStmts(schema: Schema, routine: seq<FetchStmt>, b: seq<byte>, env: Env, fuel: nat): Parsed<seq<Value>>
    decreases fuel, 1, |routine|
  {
    if routine == [] then Ok([], b)
    else
      match routine[0]
      case FetchTrueBit(cond) => Prepend(Truth(Present(cond, env)), FetchStmts(schema, routine[1..], b, env, fuel))
      case FetchField(cond, cls, absent) =>
        if !Present(cond, env) then Prepend(absent, FetchStmts(schema, routine[1..], b, env, fuel))
        else
          (match FetchValue(schema, cls, b, fuel)
           case Fail => Fail
           case Ok(v, rest) => Prepend(v, FetchStmts(schema, routine[1..], rest, env, fuel)))
      case FetchFlags(cond, x, cls) =>
        if !Present(cond, env) then Prepend(Word(4, 0), FetchStmts(schema, routine[1..], b, env[x := 0], fuel))
        else
          (match FetchValue(schema, cls, b, fuel)
           case Fail => Fail
           case Ok(v, rest) =>
             if !v.Word? || v.bits >= 0x8000_0000 then Fail
             else Prepend(v, FetchStmts(schema, routine[1..], rest, env[x := v.bits], fuel)))
  }

  function Prepend(v: Value, p: Parsed<seq<Value>>): Parsed<seq<Value>>
  {
    match p
    case Fail => Fail
    case Ok(vs, rest) => Ok([v] + vs, rest)
  }
}
