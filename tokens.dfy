/** Lexical tokens (esprima's token.ts and tokenizer.ts): the closed set of
    token types with their raw strings, the `Regex` record, and `JSToken`, whose
    optional range is a Swift `ClosedRange<Int>`. */
module Tokens {
  import opened Json
  import opened Location

  datatype TokenType =
    | BooleanLiteral
    | EOF
    | Identifier
    | Keyword
    | NullLiteral
    | NumericLiteral
    | Punctuator
    | StringLiteral
    | RegularExpression
    | Template

  /** The raw value of each token type, as written in JSON. */
  function RawValue(t: TokenType): string {
    match t
    case BooleanLiteral => "Boolean"
    case EOF => "<end>"
    case Identifier => "Identifier"
    case Keyword => "Keyword"
    case NullLiteral => "Null"
    case NumericLiteral => "Numeric"
    case Punctuator => "Punctuator"
    case StringLiteral => "String"
    case RegularExpression => "RegularExpression"
    case Template => "Template"
  }

  /** `JSTokenType(rawValue:)`: the token type with that raw value, if any. */
  function ParseTokenType(s: string): Option<TokenType> {
    if s == "Boolean" then Some(BooleanLiteral)
    else if s == "<end>" then Some(EOF)
    else if s == "Identifier" then Some(Identifier)
    else if s == "Keyword" then Some(Keyword)
    else if s == "Null" then Some(NullLiteral)
    else if s == "Numeric" then Some(NumericLiteral)
    else if s == "Punctuator" then Some(Punctuator)
    else if s == "String" then Some(StringLiteral)
    else if s == "RegularExpression" then Some(RegularExpression)
    else if s == "Template" then Some(Template)
    else None
  }

  /** The raw strings name the token types one to one: parsing a raw value gives
      its token type back, and only raw values parse. */
  lemma {:induction false} RawValueParses(t: TokenType, s: string)
    ensures ParseTokenType(RawValue(t)) == Some(t)
    ensures ParseTokenType(s) == Some(t) ==> RawValue(t) == s
  {
    match t
    case BooleanLiteral =>
    case EOF =>
    case Identifier =>
    case Keyword =>
    case NullLiteral =>
    case NumericLiteral =>
    case Punctuator =>
    case StringLiteral =>
    case RegularExpression =>
    case Template =>
  }

  /** No two token types share a raw string. */
  lemma RawValueInjective(t1: TokenType, t2: TokenType)
    ensures RawValue(t1) == RawValue(t2) ==> t1 == t2
  {
    RawValueParses(t1, RawValue(t2));
    RawValueParses(t2, RawValue(t2));
  }

  datatype Regex = Regex(pattern: string, flags: string)

  /** A Swift `ClosedRange<Int>`, `lower...upper`. */
  datatype ClosedRange = ClosedRange(lower: int, upper: int)

  datatype Token = Token(
    tokenType: TokenType,
    value: string,
    regex: Option<Regex>,
    range: Option<ClosedRange>,
    loc: Option<SourceLocation>)

  predicate ValidRange(r: ClosedRange) {
    IsInt(r.lower) && IsInt(r.upper) && r.lower <= r.upper
  }

  predicate ValidToken(t: Token) {
    (t.range.Some? ==> ValidRange(t.range.value)) && (t.loc.Some? ==> ValidLocation(t.loc.value))
  }

  function DecodeTokenType(j: Json): Result<TokenType> {
    if !j.JString? then Err(ShapeMismatch("String"))
    else match ParseTokenType(j.s)
      case Some(t) => Ok(t)
      case None => Err(DataCorrupted("Cannot initialize JSTokenType from invalid String value " + j.s))
  }

  function DecodeRegex(j: Json): Result<Regex> {
    if !j.JObject? then Err(ShapeMismatch("object"))
    else
      var pattern :- Required(j, "pattern", DecodeString);
      var flags :- Required(j, "flags", DecodeString);
      Ok(Regex(pattern, flags))
  }

  function EncodeRegex(r: Regex): Json {
    JObject(map["pattern" := JString(r.pattern), "flags" := JString(r.flags)])
  }

  /** `ClosedRange`'s `Decodable`: the two bounds from an unkeyed container
      (later elements are not read), refused when the lower bound exceeds the
      upper one. */
  function DecodeRange(j: Json): Result<ClosedRange> {
    if !j.JArray? then Err(ShapeMismatch("array"))
    else if |j.items| < 2 then Err(AtIndex(|j.items|, ShapeMismatch("Int")))
    else
      var lower :- DecodeInt(j.items[0]);
      var upper :- DecodeInt(j.items[1]);
      if lower <= upper then Ok(ClosedRange(lower, upper))
      else Err(DataCorrupted("Cannot initialize ClosedRange with a lowerBound greater than upperBound"))
  }

  function EncodeRange(r: ClosedRange): Json {
    JArray([EncodeInt(r.lower), EncodeInt(r.upper)])
  }

  function DecodeToken(j: Json): Result<Token> {
    if !j.JObject? then Err(ShapeMismatch("object"))
    else
      var tokenType :- Required(j, "type", DecodeTokenType);
      var value :- Required(j, "value", DecodeString);
      var regex :- IfPresent(j, "regex", DecodeRegex);
      var range :- IfPresent(j, "range", DecodeRange);
      var loc :- IfPresent(j, "loc", DecodeLocation);
      Ok(Token(tokenType, value, regex, range, loc))
  }

  function EncodeToken(t: Token): Json {
    JObject(
      PutIfPresent(PutIfPresent(PutIfPresent(
        map["type" := JString(RawValue(t.tokenType)), "value" := JString(t.value)],
        "regex", t.regex, EncodeRegex), "range", t.range, EncodeRange), "loc", t.loc, EncodeLocation))
  }

  /** A token's type string must be one of the raw values. */
  lemma UnknownTokenTypeRejected(j: Json)
    requires j.JObject? && "type" in j.fields && j.fields["type"].JString?
    requires forall t :: RawValue(t) != j.fields["type"].s
    ensures DecodeToken(j).Err?
  {
    var s := j.fields["type"].s;
    if ParseTokenType(s).Some? {
      RawValueParses(ParseTokenType(s).value, s);
    }
  }

  /** A decoded range is a closed range of Swift `Int`s: its lower bound is at
      most its upper bound. */
  lemma DecodedRangeOrdered(j: Json)
    requires DecodeRange(j).Ok?
    ensures ValidRange(DecodeRange(j).value)
    ensures j.items[0] == EncodeInt(DecodeRange(j).value.lower)
    ensures j.items[1] == EncodeInt(DecodeRange(j).value.upper)
  {
  }

  /** A range whose lower bound exceeds its upper bound does not decode. */
  lemma InvertedRangeRejected(lower: int, upper: int)
    requires lower > upper
    ensures DecodeRange(JArray([EncodeInt(lower), EncodeInt(upper)])).Err?
  {
  }

  lemma RangeRoundTrip(r: ClosedRange)
    requires ValidRange(r)
    ensures DecodeRange(EncodeRange(r)) == Ok(r)
  {
  }

  /** Every token a decode produces has an ordered range, if any. */
  lemma DecodedTokenValid(j: Json)
    requires DecodeToken(j).Ok?
    ensures ValidToken(DecodeToken(j).value)
  {
    var t := DecodeToken(j).value;
    if t.range.Some? {
      DecodedRangeOrdered(j.fields["range"]);
    }
    if t.loc.Some? {
      DecodedPositionValid(j.fields["loc"].fields["start"]);
      DecodedPositionValid(j.fields["loc"].fields["end"]);
    }
  }

  /** Decoding reads back every valid token the encoder writes. */
  lemma TokenRoundTrip(t: Token)
    requires ValidToken(t)
    ensures DecodeToken(EncodeToken(t)) == Ok(t)
  {
    var m := EncodeToken(t).fields;
    RawValueParses(t.tokenType, RawValue(t.tokenType));
    assert "type" in m && m["type"] == JString(RawValue(t.tokenType));
    assert "value" in m && m["value"] == JString(t.value);
    assert t.regex.Some? <==> "regex" in m;
    assert t.range.Some? <==> "range" in m;
    assert t.loc.Some? <==> "loc" in m;
    if t.range.Some? {
      RangeRoundTrip(t.range.value);
    }
    if t.loc.Some? {
      LocationRoundTrip(t.loc.value);
    }
  }
}
