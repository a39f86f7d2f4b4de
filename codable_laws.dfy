/** What every node's Codable conformance guarantees, proved once for any schema:
    the decoder keeps the JSON's structure (fields, list order, null), accepts an
    object only under a tag one of its structs carries, keeps the first `OneOf`
    alternative that claims the tag, and re-decoding what it encoded gives the
    same tree back. */
module CodableLaws {
  import opened Json
  import opened Codable

  // ---------------------------------------------------------------------------
  // Types, tags and the structs a union can hold
  // ---------------------------------------------------------------------------

  /** `v` is a value of type `ty`: the shape a decoded value has. */
  predicate HasType<S(==), U, K, F>(sc: Schema<S, U, K, F>, v: Value<S>, ty: Ty<S, U>)
    decreases v
  {
    match ty
    case StringType => v.VString?
    case BoolType => v.VBool?
    case NumberType => v.VNumber?
    case BricType => v.VBric?
    case ExplicitNullType => v.VNull?
    case NullableType(t) => v.VNull? || (v.VNonNull? && HasType(sc, v.inner, t))
    case ArrayType(t) => v.VArray? && forall i | 0 <= i < |v.items| :: HasType(sc, v.items[i], t)
    case StructType(s) =>
      v.VStruct? && v.struct == s && |v.fields| == |sc.fields(s)| &&
      forall i | 0 <= i < |v.fields| :: HasType(sc, v.fields[i], sc.fields(s)[i].ty)
    case UnionType(u) =>
      v.VAlt? && v.index < |sc.alts(u)| && HasType(sc, v.inner, sc.alts(u)[v.index])
  }

  /** `typeName`: a node's tag, and for a union the tag of the node it holds. */
  function TypeName<S, U, K, F>(sc: Schema<S, U, K, F>, v: Value<S>): Option<string> {
    match v
    case VStruct(s, _) => Tag(sc, s)
    case VAlt(_, w) => TypeName(sc, w)
    case _ => None
  }

  /** The node-type enum cases whose objects `ty` may accept. */
  ghost function Kinds<S, U(!new), K, F>(sc: Schema<S, U, K, F>, ty: Ty<S, U>): set<K>
    requires WellFormed(sc)
    decreases Rank(sc, ty), 1, 0
  {
    match ty
    case StructType(s) => (match sc.kind(s) case Some(k) => {k} case None => {})
    case UnionType(u) => AltKinds(sc, u, 0)
    case NullableType(t) => Kinds(sc, t)
    case _ => {}
  }

  ghost function AltKinds<S, U(!new), K, F>(sc: Schema<S, U, K, F>, u: U, i: nat): set<K>
    requires WellFormed(sc) && i <= |sc.alts(u)|
    decreases sc.level(u) + 1, 0, |sc.alts(u)| - i
  {
    if i == |sc.alts(u)| then {} else Kinds(sc, sc.alts(u)[i]) + AltKinds(sc, u, i + 1)
  }

  /** Struct `s` is one of the structs `ty` can hold (itself, or through unions). */
  ghost predicate Reach<S, U(!new), K, F>(sc: Schema<S, U, K, F>, ty: Ty<S, U>, s: S)
    requires WellFormed(sc)
    decreases Rank(sc, ty)
  {
    match ty
    case StructType(s') => s' == s
    case UnionType(u) => exists i | 0 <= i < |sc.alts(u)| :: Reach(sc, sc.alts(u)[i], s)
    case _ => false
  }

  /** Struct `s` is an alternative of some union. */
  ghost predicate InUnion<S, U(!new), K, F>(sc: Schema<S, U, K, F>, s: S) {
    exists u, i | 0 <= i < |sc.alts(u)| :: sc.alts(u)[i] == StructType(s)
  }

  /** What makes encoding and decoding agree: a struct has each property once,
      property keys are distinct strings that leave "type" to the tag, tags are
      distinct strings, and no two structs that are union alternatives share a
      tag. */
  ghost predicate Unambiguous<S(!new), U(!new), K(!new), F(!new)>(sc: Schema<S, U, K, F>) {
    (forall s, a, b | 0 <= a < b < |sc.fields(s)| :: sc.fields(s)[a].key != sc.fields(s)[b].key) &&
    (forall f :: sc.keyName(f) != "type") &&
    (forall f1, f2 | sc.keyName(f1) == sc.keyName(f2) :: f1 == f2) &&
    (forall k1, k2 | sc.raw(k1) == sc.raw(k2) :: k1 == k2) &&
    (forall s1, s2 | InUnion(sc, s1) && InUnion(sc, s2) && sc.kind(s1).Some? && sc.kind(s1) == sc.kind(s2) :: s1 == s2)
  }

  // ---------------------------------------------------------------------------
  // What a successful decode says about its input
  // ---------------------------------------------------------------------------

  /** A struct decodes exactly when its tag matches and every field, present
      under its key, decodes; the values come in declaration order. */
  lemma {:induction false} DecodeFieldsOk<S, U(!new), K, F>(
    sc: Schema<S, U, K, F>, fs: seq<Field<S, U, F>>, i: nat, j: Json, vs: seq<Value<S>>)
    requires WellFormed(sc) && j.JObject? && i <= |fs|
    requires DecodeFields(sc, fs, i, j) == Ok(vs)
    ensures |vs| == |fs| - i
    ensures forall a | i <= a < |fs| ::
      sc.keyName(fs[a].key) in j.fields && Decode(sc, fs[a].ty, j.fields[sc.keyName(fs[a].key)]) == Ok(vs[a - i])
    decreases |fs| - i
  {
    if i < |fs| {
      var rest := DecodeFields(sc, fs, i + 1, j);
      DecodeFieldsOk(sc, fs, i + 1, j, rest.value);
    }
  }

  lemma {:induction false} DecodeFieldsFrom<S, U(!new), K, F>(
    sc: Schema<S, U, K, F>, fs: seq<Field<S, U, F>>, i: nat, j: Json, vs: seq<Value<S>>)
    requires WellFormed(sc) && j.JObject? && i <= |fs| && |vs| == |fs| - i
    requires forall a | i <= a < |fs| ::
      sc.keyName(fs[a].key) in j.fields && Decode(sc, fs[a].ty, j.fields[sc.keyName(fs[a].key)]) == Ok(vs[a - i])
    ensures DecodeFields(sc, fs, i, j) == Ok(vs)
    decreases |fs| - i
  {
    if i < |fs| {
      DecodeFieldsFrom(sc, fs, i + 1, j, vs[1..]);
      assert vs == [vs[0]] + vs[1..];
    }
  }

  /** A field whose key is absent makes the whole struct fail: a `Nullable`
      field must be present, as JSON null at least. */
  lemma MissingFieldFails<S, U(!new), K, F>(sc: Schema<S, U, K, F>, s: S, j: Json, a: nat)
    requires WellFormed(sc) && j.JObject?
    requires a < |sc.fields(s)| && sc.keyName(sc.fields(s)[a].key) !in j.fields
    ensures Decode(sc, StructType(s), j).Err?
  {
    var r := DecodeFields(sc, sc.fields(s), 0, j);
    if r.Ok? {
      DecodeFieldsOk(sc, sc.fields(s), 0, j, r.value);
    }
  }

  /** A list decodes item by item: same length, same order. */
  lemma {:induction false} DecodeItemsOk<S, U(!new), K, F>(
    sc: Schema<S, U, K, F>, t: Ty<S, U>, j: Json, i: nat, vs: seq<Value<S>>)
    requires WellFormed(sc) && j.JArray? && i <= |j.items|
    requires DecodeItems(sc, t, j, i) == Ok(vs)
    ensures |vs| == |j.items| - i
    ensures forall a | i <= a < |j.items| :: Decode(sc, t, j.items[a]) == Ok(vs[a - i])
    decreases |j.items| - i
  {
    if i < |j.items| {
      var rest := DecodeItems(sc, t, j, i + 1);
      DecodeItemsOk(sc, t, j, i + 1, rest.value);
    }
  }

  lemma {:induction false} DecodeItemsFrom<S, U(!new), K, F>(
    sc: Schema<S, U, K, F>, t: Ty<S, U>, j: Json, i: nat, vs: seq<Value<S>>)
    requires WellFormed(sc) && j.JArray? && i <= |j.items| && |vs| == |j.items| - i
    requires forall a | i <= a < |j.items| :: Decode(sc, t, j.items[a]) == Ok(vs[a - i])
    ensures DecodeItems(sc, t, j, i) == Ok(vs)
    decreases |j.items| - i
  {
    if i < |j.items| {
      DecodeItemsFrom(sc, t, j, i + 1, vs[1..]);
      assert vs == [vs[0]] + vs[1..];
    }
  }

  /** A `OneOf` keeps the first alternative that decodes. */
  lemma {:induction false} DecodeAltsOk<S, U(!new), K, F>(
    sc: Schema<S, U, K, F>, u: U, i: nat, j: Json, errs: seq<DecodeError>, v: Value<S>)
    requires WellFormed(sc) && i <= |sc.alts(u)|
    requires DecodeAlts(sc, u, i, j, errs) == Ok(v)
    ensures v.VAlt? && i <= v.index < |sc.alts(u)|
    ensures Decode(sc, sc.alts(u)[v.index], j) == Ok(v.inner)
    ensures forall k | i <= k < v.index :: Decode(sc, sc.alts(u)[k], j).Err?
    decreases |sc.alts(u)| - i
  {
    if Decode(sc, sc.alts(u)[i], j).Err? {
      DecodeAltsOk(sc, u, i + 1, j, errs + [Decode(sc, sc.alts(u)[i], j).error], v);
    }
  }

  lemma {:induction false} DecodeAltsFrom<S, U(!new), K, F>(
    sc: Schema<S, U, K, F>, u: U, i: nat, j: Json, errs: seq<DecodeError>, n: nat, w: Value<S>)
    requires WellFormed(sc) && i <= n < |sc.alts(u)|
    requires forall k | i <= k < n :: Decode(sc, sc.alts(u)[k], j).Err?
    requires Decode(sc, sc.alts(u)[n], j) == Ok(w)
    ensures DecodeAlts(sc, u, i, j, errs) == Ok(VAlt(n, w))
    decreases n - i
  {
    if i < n {
      DecodeAltsFrom(sc, u, i + 1, j, errs + [Decode(sc, sc.alts(u)[i], j).error], n, w);
    }
  }

  /** A `OneOf` fails only when every alternative fails. */
  lemma {:induction false} DecodeAltsAny<S, U(!new), K, F>(
    sc: Schema<S, U, K, F>, u: U, i: nat, j: Json, errs: seq<DecodeError>, n: nat)
    requires WellFormed(sc) && i <= n < |sc.alts(u)|
    requires Decode(sc, sc.alts(u)[n], j).Ok?
    ensures DecodeAlts(sc, u, i, j, errs).Ok?
    decreases n - i
  {
    if i < n && Decode(sc, sc.alts(u)[i], j).Err? {
      DecodeAltsAny(sc, u, i + 1, j, errs + [Decode(sc, sc.alts(u)[i], j).error], n);
    }
  }

  /** Whatever decodes has the type it was decoded at. */
  lemma {:induction false} DecodedHasType<S, U(!new), K, F>(
    sc: Schema<S, U, K, F>, ty: Ty<S, U>, j: Json, v: Value<S>)
    requires WellFormed(sc) && Decode(sc, ty, j) == Ok(v)
    ensures HasType(sc, v, ty)
    decreases j, Rank(sc, ty)
  {
    match ty
    case NullableType(t) =>
      if !j.JNull? {
        DecodedHasType(sc, t, j, v.inner);
      }
    case ArrayType(t) =>
      DecodeItemsOk(sc, t, j, 0, v.items);
      forall a | 0 <= a < |v.items| ensures HasType(sc, v.items[a], t) {
        DecodedHasType(sc, t, j.items[a], v.items[a]);
      }
    case StructType(s) =>
      DecodeFieldsOk(sc, sc.fields(s), 0, j, v.fields);
      forall a | 0 <= a < |v.fields| ensures HasType(sc, v.fields[a], sc.fields(s)[a].ty) {
        DecodedHasType(sc, sc.fields(s)[a].ty, j.fields[sc.keyName(sc.fields(s)[a].key)], v.fields[a]);
      }
    case UnionType(u) =>
      DecodeAltsOk(sc, u, 0, j, [], v);
      DecodedHasType(sc, sc.alts(u)[v.index], j, v.inner);
    case _ =>
  }

  // ---------------------------------------------------------------------------
  // Tags: which objects a struct or a union accepts
  // ---------------------------------------------------------------------------

  /** The struct a value is, looking through the unions that hold it. */
  function Underlying<S>(v: Value<S>): Option<S> {
    match v
    case VStruct(s, _) => Some(s)
    case VAlt(_, w) => Underlying(w)
    case _ => None
  }

  /** An object decodes at a struct or union type only as one of the structs that
      type can hold, the one whose tag the object carries; `typeName` of the
      result is that tag. */
  lemma {:induction false} DecodedObject<S, U(!new), K, F>(
    sc: Schema<S, U, K, F>, ty: Ty<S, U>, j: Json, v: Value<S>)
    requires WellFormed(sc) && j.JObject? && AltShape(sc, ty) && Decode(sc, ty, j) == Ok(v)
    ensures Underlying(v).Some? && Reach(sc, ty, Underlying(v).value)
    ensures Tag(sc, Underlying(v).value).Some?
    ensures TagOf(j) == Ok(Tag(sc, Underlying(v).value).value)
    ensures TypeName(sc, v) == Tag(sc, Underlying(v).value)
    ensures Decode(sc, StructType(Underlying(v).value), j).Ok?
    decreases Rank(sc, ty)
  {
    match ty
    case StructType(s) =>
    case UnionType(u) =>
      DecodeAltsOk(sc, u, 0, j, [], v);
      DecodedObject(sc, sc.alts(u)[v.index], j, v.inner);
    case _ =>
  }

  /** Each struct a type can hold gets through it: a union accepts every object
      that one of its structs accepts. */
  lemma {:induction false} ReachAccepts<S, U(!new), K, F>(sc: Schema<S, U, K, F>, ty: Ty<S, U>, s: S, j: Json)
    requires WellFormed(sc) && Reach(sc, ty, s) && Decode(sc, StructType(s), j).Ok?
    ensures Decode(sc, ty, j).Ok?
    decreases Rank(sc, ty)
  {
    if ty.UnionType? {
      var u := ty.u;
      var i :| 0 <= i < |sc.alts(u)| && Reach(sc, sc.alts(u)[i], s);
      ReachAccepts(sc, sc.alts(u)[i], s, j);
      DecodeAltsAny(sc, u, 0, j, [], i);
    }
  }

  lemma {:induction false} ReachInUnion<S, U(!new), K, F>(sc: Schema<S, U, K, F>, u: U, s: S)
    requires WellFormed(sc) && Reach(sc, UnionType(u), s)
    ensures InUnion(sc, s)
    decreases sc.level(u)
  {
    var i :| 0 <= i < |sc.alts(u)| && Reach(sc, sc.alts(u)[i], s);
    if sc.alts(u)[i].UnionType? {
      ReachInUnion(sc, sc.alts(u)[i].u, s);
    } else {
      assert sc.alts(u)[i] == StructType(s);
    }
  }

  lemma {:induction false} AltKindsHas<S, U(!new), K, F>(sc: Schema<S, U, K, F>, u: U, i: nat, n: nat)
    requires WellFormed(sc) && i <= n < |sc.alts(u)|
    ensures Kinds(sc, sc.alts(u)[n]) <= AltKinds(sc, u, i)
    decreases n - i
  {
    if i < n {
      AltKindsHas(sc, u, i + 1, n);
    }
  }

  /** Peels one struct alternative off the tag set of a union's alternatives. */
  lemma AltKindsStep<S, U(!new), K, F>(sc: Schema<S, U, K, F>, u: U, i: nat, s: S, k: K)
    requires WellFormed(sc) && i < |sc.alts(u)| && sc.alts(u)[i] == StructType(s) && sc.kind(s) == Some(k)
    ensures AltKinds(sc, u, i) == {k} + AltKinds(sc, u, i + 1)
  {
  }

  lemma {:induction false} AltKindsFrom<S, U(!new), K, F>(sc: Schema<S, U, K, F>, u: U, i: nat, k: K)
    requires WellFormed(sc) && i <= |sc.alts(u)| && k in AltKinds(sc, u, i)
    ensures exists n | i <= n < |sc.alts(u)| :: k in Kinds(sc, sc.alts(u)[n])
    decreases |sc.alts(u)| - i
  {
    if k !in Kinds(sc, sc.alts(u)[i]) {
      AltKindsFrom(sc, u, i + 1, k);
    }
  }

  /** `k` is a tag of `ty` exactly when one of the structs `ty` can hold has it. */
  ghost predicate KindReachable<S(!new), U(!new), K, F>(sc: Schema<S, U, K, F>, ty: Ty<S, U>, k: K)
    requires WellFormed(sc)
  {
    k in Kinds(sc, ty) <==> exists s :: Reach(sc, ty, s) && sc.kind(s) == Some(k)
  }

  lemma UnionKindsReachable<S(!new), U(!new), K, F>(sc: Schema<S, U, K, F>, u: U, k: K)
    requires WellFormed(sc)
    requires forall n | 0 <= n < |sc.alts(u)| :: KindReachable(sc, sc.alts(u)[n], k)
    ensures KindReachable(sc, UnionType(u), k)
  {
    if k in Kinds(sc, UnionType(u)) {
      UnionKindHeld(sc, u, k);
    }
    if exists s :: Reach(sc, UnionType(u), s) && sc.kind(s) == Some(k) {
      var s :| Reach(sc, UnionType(u), s) && sc.kind(s) == Some(k);
      var n :| 0 <= n < |sc.alts(u)| && Reach(sc, sc.alts(u)[n], s);
      AltKindsHas(sc, u, 0, n);
    }
  }

  lemma UnionKindHeld<S(!new), U(!new), K, F>(sc: Schema<S, U, K, F>, u: U, k: K)
    requires WellFormed(sc) && k in Kinds(sc, UnionType(u))
    requires forall n | 0 <= n < |sc.alts(u)| :: KindReachable(sc, sc.alts(u)[n], k)
    ensures exists s :: Reach(sc, UnionType(u), s) && sc.kind(s) == Some(k)
  {
    AltKindsFrom(sc, u, 0, k);
    var n :| 0 <= n < |sc.alts(u)| && k in Kinds(sc, sc.alts(u)[n]);
    assert KindReachable(sc, sc.alts(u)[n], k);
    var s :| Reach(sc, sc.alts(u)[n], s) && sc.kind(s) == Some(k);
    assert Reach(sc, UnionType(u), s);
  }

  /** The tags of a type are exactly the tags of the structs it can hold. */
  lemma {:induction false} KindsAreReachable<S(!new), U(!new), K, F>(sc: Schema<S, U, K, F>, ty: Ty<S, U>, k: K)
    requires WellFormed(sc) && AltShape(sc, ty)
    ensures KindReachable(sc, ty, k)
    decreases Rank(sc, ty)
  {
    match ty
    case StructType(s) =>
      assert Reach(sc, ty, s);
    case UnionType(u) =>
      forall n | 0 <= n < |sc.alts(u)| ensures KindReachable(sc, sc.alts(u)[n], k) {
        KindsAreReachable(sc, sc.alts(u)[n], k);
      }
      UnionKindsReachable(sc, u, k);
    case _ =>
  }

  /** A type decodes an object only if the object's tag is one of the type's
      tags; an object under any other tag is rejected. */
  lemma AcceptedTag<S(!new), U(!new), K, F>(sc: Schema<S, U, K, F>, ty: Ty<S, U>, j: Json)
    requires WellFormed(sc) && j.JObject? && AltShape(sc, ty) && Decode(sc, ty, j).Ok?
    ensures TagOf(j).Ok?
    ensures exists k | k in Kinds(sc, ty) :: sc.raw(k) == TagOf(j).value
  {
    var v := Decode(sc, ty, j).value;
    DecodedObject(sc, ty, j, v);
    var s := Underlying(v).value;
    KindsAreReachable(sc, ty, sc.kind(s).value);
  }

  /** An object that decodes as a union decodes as one of the structs whose tags
      the union accepts. */
  lemma UnionHoldsStruct<S(!new), U(!new), K, F>(sc: Schema<S, U, K, F>, u: U, j: Json)
    requires WellFormed(sc) && j.JObject? && Decode(sc, UnionType(u), j).Ok?
    ensures exists s ::
      sc.kind(s).Some? && sc.kind(s).value in Kinds(sc, UnionType(u)) && Decode(sc, StructType(s), j).Ok?
  {
    var v := Decode(sc, UnionType(u), j).value;
    DecodedObject(sc, UnionType(u), j, v);
    var s := Underlying(v).value;
    KindsAreReachable(sc, UnionType(u), sc.kind(s).value);
  }

  /** A union accepts every object that a struct with one of its tags accepts,
      provided that struct is the only union alternative with that tag. */
  lemma StructInUnion<S(!new), U(!new), K, F>(sc: Schema<S, U, K, F>, u: U, s: S, j: Json)
    requires WellFormed(sc) && sc.kind(s).Some? && sc.kind(s).value in Kinds(sc, UnionType(u))
    requires Decode(sc, StructType(s), j).Ok?
    requires forall s' | InUnion(sc, s') && sc.kind(s') == sc.kind(s) :: s' == s
    ensures Decode(sc, UnionType(u), j).Ok?
  {
    KindsAreReachable(sc, UnionType(u), sc.kind(s).value);
    var s' :| Reach(sc, UnionType(u), s') && sc.kind(s') == sc.kind(s);
    ReachInUnion(sc, u, s');
    ReachAccepts(sc, UnionType(u), s, j);
  }

  /** An object whose tag is none of a type's tags does not decode at that type. */
  lemma UnlistedTagRejected<S(!new), U(!new), K(!new), F>(sc: Schema<S, U, K, F>, ty: Ty<S, U>, k: K, j: Json)
    requires WellFormed(sc) && AltShape(sc, ty)
    requires forall k1, k2 | sc.raw(k1) == sc.raw(k2) :: k1 == k2
    requires k !in Kinds(sc, ty) && TagOf(j) == Ok(sc.raw(k))
    ensures Decode(sc, ty, j).Err?
  {
    if Decode(sc, ty, j).Ok? {
      AcceptedTag(sc, ty, j);
    }
  }

  /** `ty` holds nodes only: a struct, or a union whose alternatives all hold
      nodes only (no scalar and no `ExplicitNull`). */
  ghost predicate NodesOnly<S, U(!new), K, F>(sc: Schema<S, U, K, F>, ty: Ty<S, U>)
    requires WellFormed(sc)
    decreases Rank(sc, ty)
  {
    match ty
    case StructType(_) => true
    case UnionType(u) => forall i | 0 <= i < |sc.alts(u)| :: NodesOnly(sc, sc.alts(u)[i])
    case _ => false
  }

  /** A type that holds nodes only decodes nothing but JSON objects. */
  lemma {:induction false} NodesOnlyObjects<S, U(!new), K, F>(sc: Schema<S, U, K, F>, ty: Ty<S, U>, j: Json)
    requires WellFormed(sc) && NodesOnly(sc, ty) && Decode(sc, ty, j).Ok?
    ensures j.JObject?
    decreases Rank(sc, ty)
  {
    match ty
    case StructType(s) =>
    case UnionType(u) =>
      var v := Decode(sc, ty, j).value;
      DecodeAltsOk(sc, u, 0, j, [], v);
      NodesOnlyObjects(sc, sc.alts(u)[v.index], j);
  }

  /** A `OneOf` holding an object holds it as the first alternative that claims
      the object's tag: no earlier alternative can hold a struct with that tag. */
  lemma FirstClaim<S(!new), U(!new), K(!new), F(!new)>(sc: Schema<S, U, K, F>, u: U, j: Json, v: Value<S>)
    requires WellFormed(sc) && Unambiguous(sc) && j.JObject?
    requires Decode(sc, UnionType(u), j) == Ok(v)
    ensures v.VAlt? && v.index < |sc.alts(u)| && TagOf(j).Ok?
    ensures forall k, s | 0 <= k < v.index && Reach(sc, sc.alts(u)[k], s) ::
      Tag(sc, s) != Some(TagOf(j).value)
  {
    DecodeAltsOk(sc, u, 0, j, [], v);
    DecodedObject(sc, sc.alts(u)[v.index], j, v.inner);
    var s' := Underlying(v.inner).value;
    assert Reach(sc, UnionType(u), s');
    ReachInUnion(sc, u, s');
    forall k, s | 0 <= k < v.index && Reach(sc, sc.alts(u)[k], s)
      ensures Tag(sc, s) != Some(TagOf(j).value)
    {
      if Tag(sc, s) == Some(TagOf(j).value) {
        assert Reach(sc, UnionType(u), s);
        ReachInUnion(sc, u, s);
        assert s == s';
        ReachAccepts(sc, sc.alts(u)[k], s, j);
        assert false;
      }
    }
  }

  // ---------------------------------------------------------------------------
  // Encoding, and decoding what was encoded
  // ---------------------------------------------------------------------------

  lemma {:induction false} FieldMapLookup<S, U, F>(
    keyName: F -> string, fs: seq<Field<S, U, F>>, vals: seq<Json>, a: nat)
    requires |fs| == |vals| && a < |fs|
    requires forall x, y | 0 <= x < y < |fs| :: keyName(fs[x].key) != keyName(fs[y].key)
    ensures keyName(fs[a].key) in FieldMap(keyName, fs, vals)
    ensures FieldMap(keyName, fs, vals)[keyName(fs[a].key)] == vals[a]
    decreases a
  {
    if a > 0 {
      FieldMapLookup(keyName, fs[1..], vals[1..], a - 1);
    }
  }

  /** An encoded node carries its `typeName` under "type". */
  lemma {:induction false} EncodedTag<S, U, K, F>(sc: Schema<S, U, K, F>, v: Value<S>)
    requires TypeName(sc, v).Some?
    ensures TagOf(Encode(sc, v)) == Ok(TypeName(sc, v).value)
  {
    match v
    case VStruct(_, _) =>
    case VAlt(_, w) => EncodedTag(sc, w);
  }

  /** A struct's fields are all written, each under its own key; a null field is
      written as JSON null, never left out. */
  lemma EncodedFields<S(!new), U(!new), K(!new), F(!new)>(sc: Schema<S, U, K, F>, v: Value<S>, s: S)
    requires Unambiguous(sc) && HasType(sc, v, StructType(s))
    ensures Encode(sc, v).JObject?
    ensures forall a | 0 <= a < |sc.fields(s)| ::
      sc.keyName(sc.fields(s)[a].key) in Encode(sc, v).fields &&
      Encode(sc, v).fields[sc.keyName(sc.fields(s)[a].key)] == Encode(sc, v.fields[a])
  {
    var vals := seq(|v.fields|, i requires 0 <= i < |v.fields| => Encode(sc, v.fields[i]));
    forall a | 0 <= a < |sc.fields(s)| ensures
      sc.keyName(sc.fields(s)[a].key) in Encode(sc, v).fields &&
      Encode(sc, v).fields[sc.keyName(sc.fields(s)[a].key)] == Encode(sc, v.fields[a])
    {
      FieldMapLookup(sc.keyName, sc.fields(s), vals, a);
    }
  }

  /** Only a decoded null encodes back to null. */
  lemma {:induction false} EncodedNull<S, U(!new), K, F>(sc: Schema<S, U, K, F>, ty: Ty<S, U>, j: Json, v: Value<S>)
    requires WellFormed(sc) && Decode(sc, ty, j) == Ok(v) && Encode(sc, v) == JNull
    ensures j == JNull
    decreases Rank(sc, ty)
  {
    match ty
    case NullableType(t) =>
      if !j.JNull? {
        EncodedNull(sc, t, j, v.inner);
      }
    case UnionType(u) =>
      DecodeAltsOk(sc, u, 0, j, [], v);
      EncodedNull(sc, sc.alts(u)[v.index], j, v.inner);
    case _ =>
  }

  /** A `Nullable` field is present in every object that decodes, holds null in
      the decoded struct exactly when the JSON holds null, and is written back as
      an explicit null rather than left out. */
  lemma NullableFieldKept<S(!new), U(!new), K(!new), F(!new)>(
    sc: Schema<S, U, K, F>, s: S, a: nat, j: Json, v: Value<S>)
    requires WellFormed(sc) && Unambiguous(sc)
    requires a < |sc.fields(s)| && sc.fields(s)[a].ty.NullableType?
    requires Decode(sc, StructType(s), j) == Ok(v)
    ensures j.JObject? && sc.keyName(sc.fields(s)[a].key) in j.fields
    ensures v.VStruct? && a < |v.fields|
    ensures j.fields[sc.keyName(sc.fields(s)[a].key)] == JNull <==> v.fields[a] == VNull
    ensures Encode(sc, v).JObject? && sc.keyName(sc.fields(s)[a].key) in Encode(sc, v).fields
    ensures Encode(sc, v).fields[sc.keyName(sc.fields(s)[a].key)] == JNull <==> v.fields[a] == VNull
  {
    var key := sc.keyName(sc.fields(s)[a].key);
    DecodedFieldAt(sc, s, a, j, v);
    DecodedHasType(sc, StructType(s), j, v);
    EncodedFields(sc, v, s);
    NullableNull(sc, sc.fields(s)[a].ty.of, j.fields[key], v.fields[a]);
  }

  /** Field `a` of a decoded struct is what its key held. */
  lemma DecodedFieldAt<S, U(!new), K, F>(sc: Schema<S, U, K, F>, s: S, a: nat, j: Json, v: Value<S>)
    requires WellFormed(sc) && a < |sc.fields(s)| && Decode(sc, StructType(s), j) == Ok(v)
    ensures j.JObject? && sc.keyName(sc.fields(s)[a].key) in j.fields
    ensures v.VStruct? && v.struct == s && |v.fields| == |sc.fields(s)|
    ensures Decode(sc, sc.fields(s)[a].ty, j.fields[sc.keyName(sc.fields(s)[a].key)]) == Ok(v.fields[a])
  {
    DecodedStruct(sc, s, j, v);
    DecodeFieldsOk(sc, sc.fields(s), 0, j, v.fields);
  }

  /** A `Nullable` reads null exactly from JSON null and writes null exactly for null. */
  lemma NullableNull<S, U(!new), K, F>(sc: Schema<S, U, K, F>, t: Ty<S, U>, x: Json, w: Value<S>)
    requires WellFormed(sc) && Decode(sc, NullableType(t), x) == Ok(w)
    ensures x == JNull <==> w == VNull
    ensures Encode(sc, w) == JNull <==> w == VNull
  {
    if !x.JNull? && Encode(sc, w) == JNull {
      EncodedNull(sc, t, x, w.inner);
    }
  }


  /** An `ExplicitNull` alternative after alternatives that hold nodes only is
      the case JSON null decodes to, and it encodes back to null. */
  lemma ExplicitNullHole<S, U(!new), K, F>(sc: Schema<S, U, K, F>, u: U, n: nat)
    requires WellFormed(sc) && n < |sc.alts(u)| && sc.alts(u)[n] == ExplicitNullType
    requires forall k | 0 <= k < n :: NodesOnly(sc, sc.alts(u)[k])
    ensures Decode(sc, UnionType(u), JNull) == Ok(VAlt(n, VNull))
    ensures Encode(sc, VAlt(n, VNull)) == JNull
  {
    forall k | 0 <= k < n
      ensures Decode(sc, sc.alts(u)[k], JNull).Err?
    {
      if Decode(sc, sc.alts(u)[k], JNull).Ok? {
        NodesOnlyObjects(sc, sc.alts(u)[k], JNull);
      }
    }
    DecodeAltsFrom(sc, u, 0, JNull, [], n, VNull);
  }

  /** A union alternative that decodes something other than an object gives
      back exactly that JSON scalar. */
  lemma {:induction false} EncodedScalar<S, U(!new), K, F>(sc: Schema<S, U, K, F>, ty: Ty<S, U>, j: Json, v: Value<S>)
    requires WellFormed(sc) && AltShape(sc, ty) && !j.JObject? && Decode(sc, ty, j) == Ok(v)
    ensures Encode(sc, v) == j
    decreases Rank(sc, ty)
  {
    match ty
    case UnionType(u) =>
      DecodeAltsOk(sc, u, 0, j, [], v);
      EncodedScalar(sc, sc.alts(u)[v.index], j, v.inner);
    case _ =>
  }

  /** Decoding is idempotent: re-decoding the encoding of a decoded tree gives
      the same tree, with every `OneOf` case and every null where it was. */
  lemma {:induction false} Idempotent<S(!new), U(!new), K(!new), F(!new)>(
    sc: Schema<S, U, K, F>, ty: Ty<S, U>, j: Json, v: Value<S>)
    requires WellFormed(sc) && Unambiguous(sc) && Decode(sc, ty, j) == Ok(v)
    ensures Decode(sc, ty, Encode(sc, v)) == Ok(v)
    decreases j, Rank(sc, ty), 1
  {
    match ty
    case NullableType(t) =>
      if !j.JNull? {
        Idempotent(sc, t, j, v.inner);
        if Encode(sc, v.inner) == JNull {
          EncodedNull(sc, t, j, v.inner);
        }
      }
    case ArrayType(t) => IdempotentArray(sc, t, j, v);
    case StructType(s) => IdempotentStruct(sc, s, j, v);
    case UnionType(u) => IdempotentUnion(sc, u, j, v);
    case _ =>
  }

  lemma {:induction false} IdempotentArray<S(!new), U(!new), K(!new), F(!new)>(
    sc: Schema<S, U, K, F>, t: Ty<S, U>, j: Json, v: Value<S>)
    requires WellFormed(sc) && Unambiguous(sc) && Decode(sc, ArrayType(t), j) == Ok(v)
    ensures Decode(sc, ArrayType(t), Encode(sc, v)) == Ok(v)
    decreases j, 0, 0
  {
    DecodeItemsOk(sc, t, j, 0, v.items);
    var e := Encode(sc, v);
    forall a | 0 <= a < |e.items| ensures Decode(sc, t, e.items[a]) == Ok(v.items[a]) {
      Idempotent(sc, t, j.items[a], v.items[a]);
    }
    DecodeItemsFrom(sc, t, e, 0, v.items);
  }

  lemma {:induction false} IdempotentStruct<S(!new), U(!new), K(!new), F(!new)>(
    sc: Schema<S, U, K, F>, s: S, j: Json, v: Value<S>)
    requires WellFormed(sc) && Unambiguous(sc) && Decode(sc, StructType(s), j) == Ok(v)
    ensures Decode(sc, StructType(s), Encode(sc, v)) == Ok(v)
    decreases j, 0, 0
  {
    var fs := sc.fields(s);
    DecodedStruct(sc, s, j, v);
    DecodeFieldsOk(sc, fs, 0, j, v.fields);
    forall a | 0 <= a < |fs|
      ensures Decode(sc, fs[a].ty, Encode(sc, v.fields[a])) == Ok(v.fields[a])
    {
      Idempotent(sc, fs[a].ty, j.fields[sc.keyName(fs[a].key)], v.fields[a]);
    }
    ReencodedStruct(sc, s, j, v);
  }

  /** A decoded struct whose every field re-decodes from its own encoding
      re-decodes as a whole. */
  lemma ReencodedStruct<S(!new), U(!new), K(!new), F(!new)>(sc: Schema<S, U, K, F>, s: S, j: Json, v: Value<S>)
    requires WellFormed(sc) && Unambiguous(sc) && Decode(sc, StructType(s), j) == Ok(v)
    requires v.VStruct? && |v.fields| == |sc.fields(s)|
    requires forall a | 0 <= a < |sc.fields(s)| ::
      Decode(sc, sc.fields(s)[a].ty, Encode(sc, v.fields[a])) == Ok(v.fields[a])
    ensures Decode(sc, StructType(s), Encode(sc, v)) == Ok(v)
  {
    DecodedStruct(sc, s, j, v);
    DecodedHasType(sc, StructType(s), j, v);
    EncodedFields(sc, v, s);
    DecodeFieldsFrom(sc, sc.fields(s), 0, Encode(sc, v), v.fields);
    EncodedStructTag(sc, s, v);
    StructFromParts(sc, s, Encode(sc, v), v.fields);
  }

  /** A decoded struct is the struct asked for, read from an object. */
  lemma DecodedStruct<S, U(!new), K, F>(sc: Schema<S, U, K, F>, s: S, j: Json, v: Value<S>)
    requires WellFormed(sc) && Decode(sc, StructType(s), j) == Ok(v)
    ensures j.JObject? && v == VStruct(s, v.fields) && DecodeFields(sc, sc.fields(s), 0, j) == Ok(v.fields)
  {
  }

  /** The encoding of a struct carries the tag the decoder checks. */
  lemma EncodedStructTag<S, U, K, F>(sc: Schema<S, U, K, F>, s: S, v: Value<S>)
    requires v.VStruct? && v.struct == s
    ensures DecodeTag(sc, s, Encode(sc, v)).Ok?
  {
    if Tag(sc, s).Some? {
      EncodedTag(sc, v);
    }
  }

  /** A struct decodes when its tag and its fields do. */
  lemma StructFromParts<S, U(!new), K, F>(sc: Schema<S, U, K, F>, s: S, e: Json, vs: seq<Value<S>>)
    requires WellFormed(sc) && DecodeTag(sc, s, e).Ok?
    requires DecodeFields(sc, sc.fields(s), 0, e) == Ok(vs)
    ensures Decode(sc, StructType(s), e) == Ok(VStruct(s, vs))
  {
  }

  lemma {:induction false} IdempotentUnion<S(!new), U(!new), K(!new), F(!new)>(
    sc: Schema<S, U, K, F>, u: U, j: Json, v: Value<S>)
    requires WellFormed(sc) && Unambiguous(sc) && Decode(sc, UnionType(u), j) == Ok(v)
    ensures Decode(sc, UnionType(u), Encode(sc, v)) == Ok(v)
    decreases j, sc.level(u) + 1, 0
  {
    DecodeAltsOk(sc, u, 0, j, [], v);
    var alt := sc.alts(u)[v.index];
    var w := v.inner;
    Idempotent(sc, alt, j, w);
    var e := Encode(sc, w);
    forall k | 0 <= k < v.index ensures Decode(sc, sc.alts(u)[k], e).Err? {
      if j.JObject? {
        EarlierRejects(sc, u, j, v, k);
      } else {
        EncodedScalar(sc, alt, j, w);
      }
    }
    DecodeAltsFrom(sc, u, 0, e, [], v.index, w);
  }

  /** An alternative before the one a union chose does not accept the chosen
      node's encoding either: it claims none of that node's tag. */
  lemma EarlierRejects<S(!new), U(!new), K(!new), F(!new)>(sc: Schema<S, U, K, F>, u: U, j: Json, v: Value<S>, k: nat)
    requires WellFormed(sc) && Unambiguous(sc) && j.JObject?
    requires Decode(sc, UnionType(u), j) == Ok(v)
    requires v.VAlt? && k < v.index < |sc.alts(u)|
    ensures Decode(sc, sc.alts(u)[k], Encode(sc, v.inner)).Err?
  {
    DecodeAltsOk(sc, u, 0, j, [], v);
    FirstClaim(sc, u, j, v);
    DecodedObject(sc, sc.alts(u)[v.index], j, v.inner);
    EncodedTag(sc, v.inner);
    var e := Encode(sc, v.inner);
    var r := Decode(sc, sc.alts(u)[k], e);
    if r.Ok? {
      DecodedObject(sc, sc.alts(u)[k], e, r.value);
      assert false;
    }
  }

  /** Whatever the encoder writes for a well-typed tree, the decoder reads back
      (a `OneOf` may then hold it as an earlier alternative claiming the same tag). */
  lemma {:induction false} EncodedDecodes<S(!new), U(!new), K(!new), F(!new)>(
    sc: Schema<S, U, K, F>, ty: Ty<S, U>, v: Value<S>)
    requires WellFormed(sc) && Unambiguous(sc) && HasType(sc, v, ty)
    ensures Decode(sc, ty, Encode(sc, v)).Ok?
    decreases v
  {
    match ty
    case NullableType(t) =>
      if v.VNonNull? && Encode(sc, v.inner) != JNull {
        EncodedDecodes(sc, t, v.inner);
      }
    case ArrayType(t) =>
      var e := Encode(sc, v);
      forall a | 0 <= a < |e.items| ensures Decode(sc, t, e.items[a]).Ok? {
        EncodedDecodes(sc, t, v.items[a]);
      }
      var vs := seq(|e.items|, a requires 0 <= a < |e.items| => Decode(sc, t, e.items[a]).value);
      DecodeItemsFrom(sc, t, e, 0, vs);
    case StructType(s) =>
      var fs := sc.fields(s);
      EncodedFields(sc, v, s);
      var e := Encode(sc, v);
      forall a | 0 <= a < |fs| ensures Decode(sc, fs[a].ty, e.fields[sc.keyName(fs[a].key)]).Ok? {
        EncodedDecodes(sc, fs[a].ty, v.fields[a]);
      }
      var vs := seq(|fs|, a requires 0 <= a < |fs| => Decode(sc, fs[a].ty, e.fields[sc.keyName(fs[a].key)]).value);
      DecodeFieldsFrom(sc, fs, 0, e, vs);
      if Tag(sc, s).Some? {
        EncodedTag(sc, v);
      }
    case UnionType(u) =>
      EncodedDecodes(sc, sc.alts(u)[v.index], v.inner);
      DecodeAltsAny(sc, u, 0, Encode(sc, v.inner), [], v.index);
    case _ =>
  }
}
