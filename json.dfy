/** The JSON document model that the syntax tree's Codable conformances read and write.

    A decoder ignores object keys it does not ask for, a required key that is
    absent is an error, and the node tag lives under the key "type". */
module Json {

  /** A JSON number, by value: an integral number, however it is written
      (`1`, `1.0` and `1e0` are all `Integer(1)`), or a non-integral one, kept
      opaquely as its text, which Swift reads only as a Double. */
  datatype Number = Integer(i: int) | Fraction(text: string)

  datatype Json =
    | JNull
    | JBool(b: bool)
    | JNumber(n: Number)
    | JString(s: string)
    | JArray(items: seq<Json>)
    | JObject(fields: map<string, Json>)

  /** Why a JSON value did not decode.  A node whose "type" string is not its tag
      reports the tag it expected; a union none of whose alternatives accepts the
      value reports each alternative's error, in order. */
  datatype DecodeError =
    | TagMismatch(expected: set<string>, seen: string)
    | MissingKey(key: string)
    | ShapeMismatch(wanted: string)
    | InField(key: string, inner: DecodeError)
    | AtIndex(index: nat, inner: DecodeError)
    | NoAlternative(errors: seq<DecodeError>)
    | DataCorrupted(reason: string)

  datatype Result<+T> = Ok(value: T) | Err(error: DecodeError) {
    predicate IsFailure() { Err? }
    function PropagateFailure<U>(): Result<U> requires Err? { Err(error) }
    function Extract(): T requires Ok? { value }
  }

  /** A Swift `Optional`: the key may be absent (or null) and is omitted when encoding. */
  datatype Option<+T> = None | Some(value: T)

  /** A BricBrac `Nullable`: the key is required and holds either JSON null or a value. */
  datatype Nullable<+T> = Null | NonNull(value: T)

  /** Prefixes an error with the key of the field it happened in. */
  function Within<T>(key: string, r: Result<T>): (w: Result<T>)
    ensures w.Ok? <==> r.Ok?
    ensures w.Ok? ==> w.value == r.value
  {
    if r.Err? then Err(InField(key, r.error)) else r
  }

  function Field(j: Json, key: string): Result<Json>
    requires j.JObject?
  {
    if key in j.fields then Ok(j.fields[key]) else Err(MissingKey(key))
  }

  function StringField(j: Json, key: string): Result<string>
    requires j.JObject?
  {
    var v :- Field(j, key);
    if v.JString? then Ok(v.s) else Err(InField(key, ShapeMismatch("string")))
  }

  function BoolField(j: Json, key: string): Result<bool>
    requires j.JObject?
  {
    var v :- Field(j, key);
    if v.JBool? then Ok(v.b) else Err(InField(key, ShapeMismatch("bool")))
  }

  /** The node tag: the string under "type" of a JSON object. */
  function TagOf(j: Json): (r: Result<string>)
    ensures r.Ok? <==> j.JObject? && "type" in j.fields && j.fields["type"].JString?
    ensures r.Ok? ==> r.value == j.fields["type"].s
  {
    if !j.JObject? then Err(ShapeMismatch("object"))
    else if "type" !in j.fields then Err(MissingKey("type"))
    else if !j.fields["type"].JString? then Err(InField("type", ShapeMismatch("string")))
    else Ok(j.fields["type"].s)
  }

  /** The check a single-case node-type enum makes: the tag must be exactly `tag`. */
  function Tagged(j: Json, tag: string): (r: Result<()>)
    ensures r.Ok? <==> TagOf(j) == Ok(tag)
    ensures TagOf(j).Ok? && TagOf(j).value != tag ==> r == Err(TagMismatch({tag}, TagOf(j).value))
  {
    var seen :- TagOf(j);
    if seen == tag then Ok(()) else Err(TagMismatch({tag}, seen))
  }

  /** The range of a Swift `Int` (64 bits). */
  const IntMin: int := -0x8000_0000_0000_0000
  const IntMax: int := 0x7fff_ffff_ffff_ffff

  /** A Swift `Int` read from JSON: an integral number that fits in 64 bits. */
  function DecodeInt(j: Json): (r: Result<int>)
    ensures r.Ok? <==> j.JNumber? && j.n.Integer? && IntMin <= j.n.i <= IntMax
    ensures r.Ok? ==> r.value == j.n.i
  {
    if j.JNumber? && j.n.Integer? && IntMin <= j.n.i <= IntMax then Ok(j.n.i)
    else Err(ShapeMismatch("Int"))
  }

  function EncodeInt(i: int): Json {
    JNumber(Integer(i))
  }

  function DecodeString(j: Json): Result<string> {
    if j.JString? then Ok(j.s) else Err(ShapeMismatch("String"))
  }

  function EncodeString(s: string): Json {
    JString(s)
  }

  /** A required property: absent is an error, present is decoded (null included). */
  function Required<T>(j: Json, key: string, decode: Json -> Result<T>): (r: Result<T>)
    requires j.JObject?
    ensures key !in j.fields ==> r == Err(MissingKey(key))
    ensures key in j.fields ==> (r.Ok? <==> decode(j.fields[key]).Ok?)
    ensures r.Ok? ==> key in j.fields && r.value == decode(j.fields[key]).value
  {
    if key !in j.fields then Err(MissingKey(key))
    else Within(key, decode(j.fields[key]))
  }

  /** `decodeIfPresent`: an absent key and a null value both give `nil`; any
      other value must decode. */
  function IfPresent<T>(j: Json, key: string, decode: Json -> Result<T>): (r: Result<Option<T>>)
    requires j.JObject?
    ensures key !in j.fields || j.fields[key].JNull? ==> r == Ok(None)
    ensures key in j.fields && !j.fields[key].JNull? ==>
      (r.Ok? <==> decode(j.fields[key]).Ok?) &&
      (r.Ok? ==> r.value == Some(decode(j.fields[key]).value))
  {
    if key !in j.fields || j.fields[key].JNull? then Ok(None)
    else
      var v :- Within(key, decode(j.fields[key]));
      Ok(Some(v))
  }

  /** `encodeIfPresent`: a `nil` property leaves its key out. */
  function PutIfPresent<T>(m: map<string, Json>, key: string, o: Option<T>, encode: T -> Json): (r: map<string, Json>)
    ensures o.None? ==> r == m
    ensures o.Some? ==> r == m[key := encode(o.value)]
  {
    match o
    case None => m
    case Some(v) => m[key := encode(v)]
  }

  // ---------------------------------------------------------------------------
  // Each reader against its writer
  // ---------------------------------------------------------------------------

  /** A tag written under "type" is read back, and the single-case enum accepts
      it exactly when it is that enum's own raw value; other keys do not matter. */
  lemma TagRoundTrip(m: map<string, Json>, written: string, tag: string)
    ensures TagOf(JObject(m["type" := JString(written)])) == Ok(written)
    ensures Tagged(JObject(m["type" := JString(written)]), tag).Ok? <==> written == tag
    ensures written != tag ==>
      Tagged(JObject(m["type" := JString(written)]), tag) == Err(TagMismatch({tag}, written))
    ensures "type" !in m ==> Tagged(JObject(m), tag).Err?
  {
  }

  /** An `Int` reads back from the number it is written as exactly when it fits
      in 64 bits; a non-integral number is never an `Int`. */
  lemma IntRoundTrip(i: int, text: string)
    ensures DecodeInt(EncodeInt(i)).Ok? <==> IntMin <= i <= IntMax
    ensures DecodeInt(EncodeInt(i)).Ok? ==> DecodeInt(EncodeInt(i)).value == i
    ensures DecodeInt(JNumber(Fraction(text))).Err?
  {
  }

  /** A required property reads back what was written under its key, whatever
      the other keys hold; without the key it is a `MissingKey` error. */
  lemma RequiredRoundTrip<T>(m: map<string, Json>, key: string, x: T, decode: Json -> Result<T>, encode: T -> Json)
    requires decode(encode(x)) == Ok(x)
    ensures Required(JObject(m[key := encode(x)]), key, decode) == Ok(x)
    ensures Required(JObject(m - {key}), key, decode) == Err(MissingKey(key))
  {
  }

  /** `decodeIfPresent` reads back what `encodeIfPresent` wrote, `nil` included,
      provided no value is written as null; and for an optional property a null
      reads exactly as an absent key does. */
  lemma IfPresentRoundTrip<T>(m: map<string, Json>, key: string, o: Option<T>,
                              decode: Json -> Result<T>, encode: T -> Json)
    requires key !in m
    requires o.Some? ==> decode(encode(o.value)) == Ok(o.value) && encode(o.value) != JNull
    ensures IfPresent(JObject(PutIfPresent(m, key, o, encode)), key, decode) == Ok(o)
    ensures IfPresent(JObject(m[key := JNull]), key, decode) == IfPresent(JObject(m), key, decode)
    ensures forall k | k != key :: k in PutIfPresent(m, key, o, encode) <==> k in m
  {
  }
}
