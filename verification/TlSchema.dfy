/** The schema language the serializer generator works on, and what an object of a schema type is. */
module TlSchema {
  import opened Bytes
  import opened Options

  /** The names the generator treats specially, and all others. `Nat` is the type written `#`. */
  datatype TypeName = Nat | Int | Int32 | Int53 | Int64 | Long | Double | Int128 | Int256 | Int512
                    | Bool | True | String | Bytes | SecureString | SecureBytes | Vector | Named(index: nat)

  /** A use of a type; only a vector has a child. */
  datatype Tree = Tree(bare: bool, name: TypeName, children: seq<Tree>)

  /** The field exists if bit `bit` of variable `v` is set. */
  datatype Cond = Cond(v: nat, bit: nat)

  /** A field of a combinator; `varNum` is the variable a `#` field defines. A generic field has the type of another
      function's result. */
  datatype Arg = Arg(varNum: Option<nat>, exist: Option<Cond>, ty: Tree) | Generic

  /** `complex` says that the common part of the generator does not support the combinator. */
  datatype Combinator = Combinator(id: nat, varCount: nat, args: seq<Arg>, complex: bool)

  type Schema = map<TypeName, seq<Combinator>>

  function Constructors(schema: Schema, name: TypeName): seq<Combinator>
  {
    if name in schema then schema[name] else []
  }

  predicate Supported(c: Combinator)
  {
    !c.complex && forall i :: 0 <= i < |c.args| ==> !c.args[i].Generic?
  }

  function SupportedOnly(cs: seq<Combinator>): (r: seq<Combinator>)
    ensures forall c :: c in r <==> c in cs && Supported(c)
  {
    if cs == [] then []
    else (if Supported(cs[0]) then [cs[0]] else []) + SupportedOnly(cs[1..])
  }

  predicate BuiltInSimple(name: TypeName)
  {
    !name.Nat? && !name.Vector? && !name.Named?
  }

  predicate BuiltInComplex(name: TypeName)
  {
    name.Vector?
  }

  function SimpleConstructors(schema: Schema, name: TypeName): nat
  {
    |SupportedOnly(Constructors(schema, name))|
  }

  predicate TypeBare(schema: Schema, name: TypeName)
  {
    SimpleConstructors(schema, name) <= 1 || (BuiltInSimple(name) && !name.Bool?) || BuiltInComplex(name)
  }

  // ---------------------------------------------------------------------------------------------------------
  // Values
  // ---------------------------------------------------------------------------------------------------------

  /** A run-time value: a number of a fixed width, a truth value, a string, a vector, an object of a class generated
      for a combinator, or the null pointer an optional object field starts with. */
  datatype Value = Word(width: nat, bits: nat) | Truth(b: bool) | Text(text: seq<byte>) | List(items: seq<Value>)
                 | Obj(c: Combinator, fields: seq<Value>) | Null

  /** The width in bytes of the number types, 0 for all others. */
  function WidthOf(name: TypeName): nat
  {
    match name
    case Nat => 4
    case Int => 4
    case Int32 => 4
    case Int53 => 8
    case Int64 => 8
    case Long => 8
    case Double => 8
    case Int128 => 16
    case Int256 => 32
    case Int512 => 64
    case _ => 0
  }

  predicate IsString(name: TypeName)
  {
    name.String? || name.Bytes? || name.SecureString? || name.SecureBytes?
  }

  function DefaultOf(name: TypeName): Value
  {
    if WidthOf(name) != 0 then Word(WidthOf(name), 0)
    else if name.Bool? || name.True? then Truth(false)
    else if IsString(name) then Text([])
    else if name.Vector? then List([])
    else Null
  }

  /** The values of the `#` variables while the fields of an object are walked through. */
  type Env = map<nat, nat>

  function Pow2(k: nat): (p: nat)
    ensures p >= 1
  {
    if k == 0 then 1 else 2 * Pow2(k - 1)
  }

  predicate HasBit(word: nat, bit: nat)
  {
    word / Pow2(bit) % 2 == 1
  }

  function SetBit(word: nat, bit: nat): nat
  {
    if HasBit(word, bit) then word else word + Pow2(bit)
  }

  predicate Present(exist: Option<Cond>, env: Env)
  {
    exist.None? || (exist.value.v in env && HasBit(env[exist.value.v], exist.value.bit))
  }

  /** A field that only exists as a bit of a flags word. */
  predicate IsTrueField(a: Arg)
  {
    a.Arg? && a.exist.Some? && a.varNum.None? && a.ty.name.True?
  }

  /** The flags word with the bits of all `True` fields that depend on variable `v`, from field `i` on. */
  function MergedFlags(args: seq<Arg>, fields: seq<Value>, v: nat, word: nat, i: nat): nat
    requires i <= |args| == |fields|
    decreases |args| - i
  {
    if i == |args| then word
    else
      var a := args[i];
      var on := a.Arg? && a.exist.Some? && a.exist.value.v == v && a.ty.name.True? && fields[i] == Truth(true);
      MergedFlags(args, fields, v, if on then SetBit(word, a.exist.value.bit) else word, i + 1)
  }

  /** The variables after field `i` of an object. */
  function EnvAfter(c: Combinator, fields: seq<Value>, i: nat, env: Env): Env
    requires i < |c.args| == |fields|
  {
    var a := c.args[i];
    if a.Arg? && a.varNum.Some? && fields[i].Word?
    then env[a.varNum.value := MergedFlags(c.args, fields, a.varNum.value, fields[i].bits, 0)]
    else env
  }

  /** `v` is a value of type `t`: an object's present fields are values of their types. A flags word is always present:
      the store routine would leave its variable without a value otherwise. */
  predicate WellTyped(schema: Schema, v: Value, t: Tree)
    decreases v, 1, 0
  {
    if WidthOf(t.name) != 0 then v.Word? && v.width == WidthOf(t.name) && v.bits < Pow256(v.width)
    else if t.name.Bool? then v.Truth?
    else if IsString(t.name) then v.Text? && |v.text| < 0x1_0000_0000
    else if t.name.Vector? then
      && |t.children| == 1 && v.List? && |v.items| < 0x8000_0000
      && forall i :: 0 <= i < |v.items| ==> WellTyped(schema, v.items[i], t.children[0])
    else if t.name.Named? then
      && v.Obj? && v.c in Constructors(schema, t.name) && Supported(v.c) && |v.fields| == |v.c.args|
      && FieldsTyped(schema, v, 0, map[])
    else false
  }

  predicate FieldsTyped(schema: Schema, v: Value, i: nat, env: Env)
    requires v.Obj? && i <= |v.c.args| == |v.fields|
    decreases v, 0, |v.c.args| - i
  {
    if i == |v.c.args| then true
    else
      var a := v.c.args[i];
      && FieldsTyped(schema, v, i + 1, EnvAfter(v.c, v.fields, i, env))
      && a.Arg?
      && (if a.varNum.Some? then
            && a.exist.None? && v.fields[i].Word? && v.fields[i].width == 4
            && MergedFlags(v.c.args, v.fields, a.varNum.value, v.fields[i].bits, 0) < 0x1_0000_0000
          else if IsTrueField(a) then v.fields[i].Truth?
          else Present(a.exist, env) ==> WellTyped(schema, v.fields[i], a.ty))
  }

  /** What comes back when a value is stored and fetched: every flags word has the bits of its `True` fields, every
      `True` field is the bit of its flags word, and every absent field has the default of its type. */
  function Normal(v: Value): Value
    decreases v, 1, 0
  {
    match v
    case List(items) => List(seq(|items|, i requires 0 <= i < |items| => Normal(items[i])))
    case Obj(c, fields) => if |fields| == |c.args| then Obj(c, NormalFields(v, 0, map[])) else v
    case _ => v
  }

  function NormalField(v: Value, i: nat, env: Env): Value
    requires v.Obj? && i < |v.c.args| == |v.fields|
    decreases v, 0, |v.c.args| - i, 0
  {
    var a := v.c.args[i];
    if a.Generic? then v.fields[i]
    else if a.varNum.Some? && v.fields[i].Word? then
      Word(4, MergedFlags(v.c.args, v.fields, a.varNum.value, v.fields[i].bits, 0))
    else if IsTrueField(a) then Truth(Present(a.exist, env))
    else if Present(a.exist, env) then Normal(v.fields[i])
    else DefaultOf(a.ty.name)
  }

  function NormalFields(v: Value, i: nat, env: Env): (r: seq<Value>)
    requires v.Obj? && i <= |v.c.args| == |v.fields|
    ensures |r| == |v.c.args| - i
    decreases v, 0, |v.c.args| - i, 1
  {
    if i == |v.c.args| then []
    else [NormalField(v, i, env)] + NormalFields(v, i + 1, EnvAfter(v.c, v.fields, i, env))
  }

  function Max(a: nat, b: nat): nat { if a < b then b else a }

  /** How deeply objects are nested. */
  function Depth(v: Value): nat
    decreases v, 1
  {
    match v
    case List(items) => DepthOf(items)
    case Obj(_, fields) => 1 + DepthOf(fields)
    case _ => 0
  }

  function DepthOf(vs: seq<Value>): (d: nat)
    ensures forall i :: 0 <= i < |vs| ==> Depth(vs[i]) <= d
    decreases vs, 0
  {
    if vs == [] then 0 else Max(Depth(vs[0]), DepthOf(vs[1..]))
  }
}
