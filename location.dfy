/** Source positions (esprima's scanner.ts): a `Position` is an optional line
    and column, a `SourceLocation` a start and an end position with an optional
    source name.  Both are synthesised `Codable` structs: optional properties
    are read with `decodeIfPresent` and written with `encodeIfPresent`. */
module Location {
  import opened Json

  datatype Position = Position(line: Option<int>, column: Option<int>)

  datatype SourceLocation = SourceLocation(start: Position, end: Position, source: Option<string>)

  /** A Swift `Int` holds the number. */
  predicate IsInt(i: int) {
    IntMin <= i <= IntMax
  }

  predicate ValidPosition(p: Position) {
    (p.line.Some? ==> IsInt(p.line.value)) && (p.column.Some? ==> IsInt(p.column.value))
  }

  predicate ValidLocation(l: SourceLocation) {
    ValidPosition(l.start) && ValidPosition(l.end)
  }

  /** `Position(line: nil, column: nil)`, the default the initialiser gives. */
  const NoPosition: Position := Position(None, None)

  function DecodePosition(j: Json): Result<Position> {
    if !j.JObject? then Err(ShapeMismatch("object"))
    else
      var line :- IfPresent(j, "line", DecodeInt);
      var column :- IfPresent(j, "column", DecodeInt);
      Ok(Position(line, column))
  }

  function EncodePosition(p: Position): (j: Json)
    ensures j.JObject?
  {
    JObject(PutIfPresent(PutIfPresent(map[], "line", p.line, EncodeInt), "column", p.column, EncodeInt))
  }

  function DecodeLocation(j: Json): Result<SourceLocation> {
    if !j.JObject? then Err(ShapeMismatch("object"))
    else
      var start :- Required(j, "start", DecodePosition);
      var end :- Required(j, "end", DecodePosition);
      var source :- IfPresent(j, "source", DecodeString);
      Ok(SourceLocation(start, end, source))
  }

  function EncodeLocation(l: SourceLocation): (j: Json)
    ensures j.JObject?
  {
    JObject(PutIfPresent(map["start" := EncodePosition(l.start), "end" := EncodePosition(l.end)],
      "source", l.source, EncodeString))
  }

  /** Whatever decodes is a position of Swift `Int`s. */
  lemma DecodedPositionValid(j: Json)
    requires DecodePosition(j).Ok?
    ensures ValidPosition(DecodePosition(j).value)
  {
  }

  /** Decoding reads back every position the encoder writes. */
  lemma PositionRoundTrip(p: Position)
    requires ValidPosition(p)
    ensures DecodePosition(EncodePosition(p)) == Ok(p)
  {
    var m := EncodePosition(p).fields;
    assert p.line.Some? <==> "line" in m;
    assert p.column.Some? <==> "column" in m;
  }

  /** A position without line and column is written as an empty object, and a
      null line or column reads the same as an absent one. */
  lemma NoPositionIsEmpty(j: Json)
    requires j.JObject? && (forall k | k in j.fields :: j.fields[k] == JNull)
    ensures EncodePosition(NoPosition) == JObject(map[])
    ensures DecodePosition(j) == Ok(NoPosition)
  {
  }

  /** Decoding reads back every source location the encoder writes. */
  lemma LocationRoundTrip(l: SourceLocation)
    requires ValidLocation(l)
    ensures DecodeLocation(EncodeLocation(l)) == Ok(l)
  {
    PositionRoundTrip(l.start);
    PositionRoundTrip(l.end);
    var m := EncodeLocation(l).fields;
    assert "start" in m && m["start"] == EncodePosition(l.start);
    assert "end" in m && m["end"] == EncodePosition(l.end);
    assert l.source.Some? <==> "source" in m;
  }

  /** A location needs both ends: without "start" or "end" it does not decode. */
  lemma LocationNeedsEnds(j: Json)
    requires j.JObject? && ("start" !in j.fields || "end" !in j.fields)
    ensures DecodeLocation(j).Err?
  {
  }
}
