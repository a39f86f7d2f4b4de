/** esprima's error-handler.ts: the syntax error record and the handler that, in
    tolerant mode, collects errors instead of throwing them.

    A Swift `throws` becomes an `Option` result: `Some(e)` is the error thrown,
    `None` a normal return. */
module ErrorHandling {
  import opened Json
  import opened Messages

  datatype SyntaxError = SyntaxError(
    name: string,
    message: string,
    index: int,
    lineNumber: int,
    column: int,
    description: Message)

  // ---------------------------------------------------------------------------
  // How Swift renders an `Int` inside a string
  // ---------------------------------------------------------------------------

  function DigitChar(d: nat): (c: char)
    requires d < 10
    ensures '0' <= c <= '9' && (c - '0') as nat == d
  {
    (d + '0' as int) as char
  }

  /** The decimal digits of `n`, most significant first, without leading zeros. */
  function Digits(n: nat): (s: string)
    ensures |s| > 0 && forall i | 0 <= i < |s| :: '0' <= s[i] <= '9'
    decreases n
  {
    if n < 10 then [DigitChar(n)] else Digits(n / 10) + [DigitChar(n % 10)]
  }

  /** `"\(n)"` for a Swift `Int`: its decimal digits, after a minus sign when negative. */
  function DecimalString(n: int): (s: string)
    ensures |s| > 0 && forall i | 0 <= i < |s| :: s[i] == '-' || '0' <= s[i] <= '9'
  {
    if n < 0 then "-" + Digits(-n) else Digits(n)
  }

  /** Reads a non-empty run of decimal digits. */
  function ParseDigits(s: string): (r: Option<nat>)
    decreases |s|
  {
    if |s| == 0 then None
    else if !('0' <= s[|s| - 1] <= '9') then None
    else if |s| == 1 then Some((s[0] - '0') as nat)
    else match ParseDigits(s[..|s| - 1])
      case None => None
      case Some(high) => Some(high * 10 + (s[|s| - 1] - '0') as nat)
  }

  /** Reads back what `DecimalString` writes. */
  function ParseDecimal(s: string): Option<int> {
    var digits := if |s| > 0 && s[0] == '-' then s[1..] else s;
    match ParseDigits(digits)
    case None => None
    case Some(n) => if |s| > 0 && s[0] == '-' then Some(0 - n) else Some(n as int)
  }

  lemma {:induction false} DigitsParse(n: nat)
    ensures ParseDigits(Digits(n)) == Some(n)
    decreases n
  {
    var s := Digits(n);
    if n >= 10 {
      DigitsParse(n / 10);
      assert s == Digits(n / 10) + [DigitChar(n % 10)];
      assert s[..|s| - 1] == Digits(n / 10);
      assert s[|s| - 1] == DigitChar(n % 10);
    }
  }

  /** `DecimalString` loses nothing: every `Int` is read back from its rendering. */
  lemma DecimalRoundTrip(n: int)
    ensures ParseDecimal(DecimalString(n)) == Some(n)
  {
    if n < 0 {
      var d := Digits(-n);
      DigitsParse(-n);
      assert DecimalString(n) == "-" + d;
      assert ("-" + d)[0] == '-' && ("-" + d)[1..] == d;
    } else {
      DigitsParse(n);
      assert '0' <= Digits(n)[0] <= '9';
    }
  }

  // ---------------------------------------------------------------------------
  // Creating errors
  // ---------------------------------------------------------------------------

  /** The message of an error: the line, then the interpolated `Messages` case,
      which Swift renders as the case name (not its `errorDescription`). */
  function ErrorMessage(line: int, description: Message): string {
    "Line " + DecimalString(line) + ": " + CaseName(description)
  }

  /** `createError(index:line:col:description:)`. */
  function CreateError(index: int, line: int, col: int, description: Message): (e: SyntaxError)
    ensures e.name == "" && e.index == index && e.lineNumber == line && e.column == col
    ensures e.description == description
    ensures e.message == ErrorMessage(line, description)
  {
    SyntaxError("", ErrorMessage(line, description), index, line, col, description)
  }

  /** The line number of a message, read back from its "Line <n>: " prefix. */
  function MessageLine(message: string): Option<int> {
    if |message| < 5 || message[..5] != "Line " then None
    else LineBefore(message[5..], 0)
  }

  /** The number before the first ": " at or after `i` in `s`. */
  function LineBefore(s: string, i: nat): Option<int>
    requires i <= |s|
    decreases |s| - i
  {
    if i + 2 > |s| then None
    else if s[i] == ':' && s[i + 1] == ' ' then ParseDecimal(s[..i])
    else LineBefore(s, i + 1)
  }

  lemma {:induction false} LineBeforeSkips(s: string, i: nat, k: nat)
    requires i <= k && k + 2 <= |s| && s[k] == ':' && s[k + 1] == ' '
    requires forall m | i <= m < k :: s[m] != ':'
    ensures LineBefore(s, i) == ParseDecimal(s[..k])
    decreases k - i
  {
    if i < k {
      LineBeforeSkips(s, i + 1, k);
    }
  }

  /** The message of a created error names its line: reading the number after
      "Line " gives back the line the error was created with, and the message
      ends with the name of the `Messages` case. */
  lemma MessageNamesLine(index: int, line: int, col: int, description: Message)
    ensures MessageLine(CreateError(index, line, col, description).message) == Some(line)
    ensures var m := CreateError(index, line, col, description).message;
      |m| >= |CaseName(description)| && m[|m| - |CaseName(description)|..] == CaseName(description)
  {
    var name := CaseName(description);
    MessageParts(DecimalString(line), name);
    DecimalRoundTrip(line);
  }

  /** A message "Line <d>: <name>" reads back `d` as its line and ends with `name`,
      whatever `name` says, provided `d` holds no colon. */
  lemma MessageParts(d: string, name: string)
    requires forall i | 0 <= i < |d| :: d[i] != ':'
    ensures MessageLine("Line " + d + ": " + name) == ParseDecimal(d)
    ensures var m := "Line " + d + ": " + name;
      |m| >= |name| && m[|m| - |name|..] == name
  {
    var m := "Line " + d + ": " + name;
    var s := m[5..];
    assert m[..5] == "Line ";
    assert s == d + ": " + name;
    assert s[..|d|] == d;
    LineBeforeSkips(s, 0, |d|);
    assert m[|m| - |name|..] == name;
  }

  // ---------------------------------------------------------------------------
  // The handler
  // ---------------------------------------------------------------------------

  class ErrorHandler {
    var errors: seq<SyntaxError>
    var tolerant: bool

    /** A new handler has recorded nothing and is not tolerant. */
    constructor()
      ensures errors == [] && !tolerant
    {
      errors := [];
      tolerant := false;
    }

    /** `recordError`: appends the error. */
    method RecordError(error: SyntaxError)
      modifies this
      ensures errors == old(errors) + [error] && tolerant == old(tolerant)
    {
      errors := errors + [error];
    }

    /** `tolerate`: a tolerant handler records the error and returns; any other
        throws it and records nothing. */
    method Tolerate(error: SyntaxError) returns (thrown: Option<SyntaxError>)
      modifies this
      ensures tolerant == old(tolerant)
      ensures old(tolerant) ==> errors == old(errors) + [error] && thrown == None
      ensures !old(tolerant) ==> errors == old(errors) && thrown == Some(error)
    {
      if tolerant {
        RecordError(error);
        thrown := None;
      } else {
        thrown := Some(error);
      }
    }

    /** `throwError`: always throws the created error, and records nothing. */
    method ThrowError(index: int, line: int, col: int, description: Message) returns (thrown: SyntaxError)
      ensures thrown == CreateError(index, line, col, description)
    {
      thrown := CreateError(index, line, col, description);
    }

    /** `tolerateError`: `tolerate` applied to the created error. */
    method TolerateError(index: int, line: int, col: int, description: Message) returns (thrown: Option<SyntaxError>)
      modifies this
      ensures tolerant == old(tolerant)
      ensures old(tolerant) ==> errors == old(errors) + [CreateError(index, line, col, description)] && thrown == None
      ensures !old(tolerant) ==> errors == old(errors) && thrown == Some(CreateError(index, line, col, description))
    {
      var error := CreateError(index, line, col, description);
      if tolerant {
        RecordError(error);
        thrown := None;
      } else {
        thrown := Some(error);
      }
    }
  }
}
