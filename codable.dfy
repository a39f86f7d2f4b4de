/** The synthesised Codable conformances of the syntax tree, described once as a
    schema interpreter.

    Every node struct stores its properties under their own names and its tag
    (a single-case enum whose raw value is the node type) under "type"; a union
    is a BricBrac `OneOf`, which tries its alternatives in declaration order and
    keeps the first one that decodes; a `Nullable` field holds JSON null or a
    value.  A `Schema` says, for each struct, its tag and its fields and, for
    each union, its alternatives, so that the decoder and the encoder below are
    the single definition every node shares. */
module Codable {
  import opened Json

  /** The type of a stored property or of a union alternative. */
  datatype Ty<S, U> =
    | StringType
    | BoolType
    | NumberType          // a Swift Double, kept as the JSON number it was read from
    | BricType            // an opaque JSON value
    | ExplicitNullType    // BricBrac's ExplicitNull: exactly JSON null
    | StructType(s: S)
    | UnionType(u: U)
    | NullableType(of: Ty<S, U>)
    | ArrayType(of: Ty<S, U>)

  datatype Field<S, U, F> = Field(key: F, ty: Ty<S, U>)

  /** `kind(s)` is the node-type enum case of struct `s` (None for a struct with no
      tag), `raw` gives each case's raw string, `fields(s)` lists the stored
      properties in declaration order, `keyName` gives each property's JSON key,
      `alts(u)` the alternatives of union `u` in `OneOf` order, and `level(u)`
      bounds how deeply unions nest inside `u`. */
  datatype Schema<!S, !U, !K, !F> = Schema(
    kind: S -> Option<K>,
    raw: K -> string,
    fields: S -> seq<Field<S, U, F>>,
    keyName: F -> string,
    alts: U -> seq<Ty<S, U>>,
    level: U -> nat)

  /** A decoded value.  `VAlt(i, v)` is the `i`-th case of a `OneOf`; `VNull` is
      both a `Nullable` holding null and an `ExplicitNull`. */
  datatype Value<S> =
    | VString(str: string)
    | VBool(b: bool)
    | VNumber(n: Number)
    | VBric(j: Json)
    | VNull
    | VStruct(struct: S, fields: seq<Value<S>>)
    | VAlt(index: nat, inner: Value<S>)
    | VNonNull(inner: Value<S>)
    | VArray(items: seq<Value<S>>)

  function Rank<S, U, K, F>(sc: Schema<S, U, K, F>, ty: Ty<S, U>): nat {
    match ty
    case UnionType(u) => sc.level(u) + 1
    case NullableType(t) => Rank(sc, t) + 1
    case _ => 0
  }

  /** What a union alternative may be: a tagged struct, another union, or a
      JSON scalar (the literal value of a `Literal` node is such a union). */
  predicate AltShape<S, U, K, F>(sc: Schema<S, U, K, F>, ty: Ty<S, U>) {
    match ty
    case StructType(s) => sc.kind(s).Some?
    case UnionType(_) => true
    case StringType => true
    case BoolType => true
    case NumberType => true
    case ExplicitNullType => true
    case _ => false
  }

  /** Unions nest finitely, and every alternative has a shape a `OneOf` can
      tell apart from the others by the JSON alone. */
  ghost predicate WellFormed<S, U(!new), K, F>(sc: Schema<S, U, K, F>) {
    forall u, i | 0 <= i < |sc.alts(u)| ::
      Rank(sc, sc.alts(u)[i]) <= sc.level(u) && AltShape(sc, sc.alts(u)[i])
  }

  /** The tag string of struct `s`, if it has one. */
  function Tag<S, U, K, F>(sc: Schema<S, U, K, F>, s: S): Option<string> {
    match sc.kind(s)
    case Some(k) => Some(sc.raw(k))
    case None => None
  }

  function Decode<S, U(!new), K, F>(sc: Schema<S, U, K, F>, ty: Ty<S, U>, j: Json): Result<Value<S>>
    requires WellFormed(sc)
    decreases j, Rank(sc, ty), 1, 0
  {
    match ty
    case StringType => if j.JString? then Ok(VString(j.s)) else Err(ShapeMismatch("string"))
    case BoolType => if j.JBool? then Ok(VBool(j.b)) else Err(ShapeMismatch("bool"))
    case NumberType => if j.JNumber? then Ok(VNumber(j.n)) else Err(ShapeMismatch("number"))
    case BricType => Ok(VBric(j))
    case ExplicitNullType => if j.JNull? then Ok(VNull) else Err(ShapeMismatch("null"))
    case NullableType(t) =>
      if j.JNull? then Ok(VNull)
      else
        var v :- Decode(sc, t, j);
        Ok(VNonNull(v))
    case ArrayType(t) =>
      if j.JArray? then
        var vs :- DecodeItems(sc, t, j, 0);
        Ok(VArray(vs))
      else Err(ShapeMismatch("array"))
    case StructType(s) =>
      var _ :- DecodeTag(sc, s, j);
      var vs :- DecodeFields(sc, sc.fields(s), 0, j);
      Ok(VStruct(s, vs))
    case UnionType(u) => DecodeAlts(sc, u, 0, j, [])
  }

  /** A tagged struct checks its "type" string; an untagged one only needs an object. */
  function DecodeTag<S, U, K, F>(sc: Schema<S, U, K, F>, s: S, j: Json): (r: Result<()>)
    ensures r.Ok? ==> j.JObject?
    ensures Tag(sc, s).Some? ==> (r.Ok? <==> TagOf(j) == Ok(Tag(sc, s).value))
    ensures Tag(sc, s).None? ==> (r.Ok? <==> j.JObject?)
  {
    match sc.kind(s)
    case Some(k) => Tagged(j, sc.raw(k))
    case None => if j.JObject? then Ok(()) else Err(ShapeMismatch("object"))
  }

  function DecodeFields<S, U(!new), K, F>(sc: Schema<S, U, K, F>, fs: seq<Field<S, U, F>>, i: nat, j: Json)
    : Result<seq<Value<S>>>
    requires WellFormed(sc) && j.JObject? && i <= |fs|
    decreases j, 0, 0, |fs| - i
  {
    if i == |fs| then Ok([])
    else if sc.keyName(fs[i].key) !in j.fields then Err(MissingKey(sc.keyName(fs[i].key)))
    else
      var v :- Within(sc.keyName(fs[i].key), Decode(sc, fs[i].ty, j.fields[sc.keyName(fs[i].key)]));
      var rest :- DecodeFields(sc, fs, i + 1, j);
      Ok([v] + rest)
  }

  function DecodeItems<S, U(!new), K, F>(sc: Schema<S, U, K, F>, t: Ty<S, U>, j: Json, i: nat)
    : Result<seq<Value<S>>>
    requires WellFormed(sc) && j.JArray? && i <= |j.items|
    decreases j, 0, 0, |j.items| - i
  {
    if i == |j.items| then Ok([])
    else
      var v :- (match Decode(sc, t, j.items[i])
                case Ok(v) => Ok(v)
                case Err(e) => Err(AtIndex(i, e)));
      var rest :- DecodeItems(sc, t, j, i + 1);
      Ok([v] + rest)
  }

  /** The `OneOf` decoder: the first alternative from `i` on that decodes `j`;
      `errs` are the errors of the alternatives before `i`. */
  function DecodeAlts<S, U(!new), K, F>(sc: Schema<S, U, K, F>, u: U, i: nat, j: Json, errs: seq<DecodeError>)
    : Result<Value<S>>
    requires WellFormed(sc) && i <= |sc.alts(u)|
    decreases j, sc.level(u) + 1, 0, |sc.alts(u)| - i
  {
    if i == |sc.alts(u)| then Err(NoAlternative(errs))
    else
      match Decode(sc, sc.alts(u)[i], j)
      case Ok(v) => Ok(VAlt(i, v))
      case Err(e) => DecodeAlts(sc, u, i + 1, j, errs + [e])
  }

  /** The JSON object of a struct: each field under its key (the first of two
      equal keys wins). */
  function FieldMap<S, U, F>(keyName: F -> string, fs: seq<Field<S, U, F>>, vals: seq<Json>)
    : map<string, Json>
    decreases |vals|
  {
    if |fs| == 0 || |vals| == 0 then map[]
    else FieldMap(keyName, fs[1..], vals[1..])[keyName(fs[0].key) := vals[0]]
  }

  function Encode<S, U, K, F>(sc: Schema<S, U, K, F>, v: Value<S>): Json
    decreases v
  {
    match v
    case VString(s) => JString(s)
    case VBool(b) => JBool(b)
    case VNumber(n) => JNumber(n)
    case VBric(j) => j
    case VNull => JNull
    case VStruct(s, vs) =>
      var m := FieldMap(sc.keyName, sc.fields(s), seq(|vs|, i requires 0 <= i < |vs| => Encode(sc, vs[i])));
      JObject(match Tag(sc, s) case Some(t) => m["type" := JString(t)] case None => m)
    case VAlt(_, w) => Encode(sc, w)
    case VNonNull(w) => Encode(sc, w)
    case VArray(vs) => JArray(seq(|vs|, i requires 0 <= i < |vs| => Encode(sc, vs[i])))
  }
}
