# JSSwift syntax-tree schema, modelled in Dafny

JSSwift lets Swift code parse JavaScript. It does this by running the esprima
parser inside a JavaScript context and decoding esprima's JSON output into typed
Swift values. This project models the part of JSSwift that holds its own logic:

- **The `JSSyntax` schema** (`Sources/JSSwift/JSSyntax.swift`). About seventy node
  structs are ported from esprima's `syntax.ts`.
  - Each struct has a single-case `type` enum, whose raw value is the node's tag.
  - Each struct stores its properties in a given order.
  - The grammar unions are BricBrac `OneOf` chains. A chain tries its
    alternatives in order and keeps the first one that decodes.
  - `Nullable` properties must be present and may be JSON null.
  - Swift optionals may be absent. When they are `nil`, encoding omits the key.
- **Everything else in `JSSyntax.swift`:**
  - the `typeName` forwarding;
  - the closed `Messages` catalogue and its `errorDescription`;
  - the lexical token records (`JSTokenType`, `Regex`, `JSToken`);
  - `Position` and `SourceLocation`;
  - the tolerant-mode `ErrorHandler`.
- **The `ESTree` schema** (`Sources/JSSwift/ESTree.swift`).
  - Each ES5 node keeps its tag and optional `loc` and `range` metadata.
  - `Program` holds a body of `Declaration`-or-`Statement` items.
  - The flat unions are `Statement`, `Expression`, `Declaration`, `Pattern` and
    `Function`.

## How the model is organised

| module | role |
|---|---|
| `Json` | JSON values, decode errors, and the keyed-container operations Swift's synthesised `Codable` uses. `Required` is `decode`; `IfPresent` and `PutIfPresent` are `decodeIfPresent` and `encodeIfPresent`. |
| `Codable` | One schema interpreter. The tables give each struct's tag and fields and each union's alternatives. `Decode` and `Encode` follow the synthesised conformances: the tag goes under `"type"`, then the fields in order, with first-match `OneOf` and `Nullable` versus optional. |
| `CodableLaws` | Laws of the interpreter for any well-formed, unambiguous schema: what a decode accepts, first match, null versus absent, and idempotence of decoding. |
| `NodeTypes`, `FieldKeys`, `JSSyntax`, `JSSyntaxTables` | The concrete `JSSyntax` tables: node types with their raw values, property keys, struct fields in declaration order, and union alternatives. Nested `OneOf`s are flattened, since the flattened list is tried in the same order. Also the facts that make the schema well formed and unambiguous. |
| `JSSyntaxLaws` | The properties of the concrete schema. |
| `Location`, `Tokens`, `Messages`, `ErrorHandling` | `Position`/`SourceLocation`, the token records, the message catalogue, and the `ErrorHandler` class. |
| `ESTreeNodeTypes`, `ESTree` | The ES5 schema: node tags, metadata, unions and `Program`. It has its own small decoder (`DecodeArray`, `DecodeAlts`) instead of the `Codable` tables. An ESTree node is one generic shape, tag plus `loc` and `range`, with no per-struct fields, and its unions are flat lists of node types rather than `OneOf` chains over structs. |

Some conventions:

- A Swift `throws` is a returned `Result` (`Err`) or `Option` (`Some(error)`).
- A Swift `Int` is a Dafny `int`. It is checked against the 64-bit range where
  JSON is decoded into it (`DecodeInt`).
- Numbers are split by value: `Integer(i)` for an integral number, however it
  is written (`1`, `1.0` and `1e0` are all `Integer(1)`), and `Fraction(text)`
  for a non-integral one, kept as its text.

Several unions accept the same tags. `Declaration` and `Statement` both accept
`FunctionDeclaration`. Under first match, `decode(encode(v))` may therefore
choose an earlier branch than the one `v` was built with. So the round trip is
stated on decoded values: re-decoding the encoding of a decoded value gives the
same value (`DecodeIdempotent`, `ESTree.ProgramIdempotent`). For the records
without unions, the plain round trip is proved (`PositionRoundTrip`,
`TokenRoundTrip`, `ESTree.NodeRoundTrip`).

## Model

| member | source | states |
|---|---|---|
| Json.TagRoundTrip | Sources/JSSwift/JSSyntax.swift:1458-1465 | A tag written under `"type"` is read back as written. The single-case tag enum accepts it exactly when it is its own raw value, and otherwise fails with a `TagMismatch` naming both tags. An object without `"type"` is refused. |
| Json.IntRoundTrip | Sources/JSSwift/JSSyntax.swift:1433-1434 | An encoded `Int` decodes back to itself exactly when it lies in the 64-bit range. A non-integral number never decodes as an `Int`. |
| Json.RequiredRoundTrip | Sources/JSSwift/JSSyntax.swift:16-19 | A non-optional property written under its key is read back as the same value. With the key removed, the read fails with `MissingKey` for that key. |
| Json.IfPresentRoundTrip | Sources/JSSwift/JSSyntax.swift:1433-1434 | An optional property is written only when present, and is read back as the same optional. An explicit null reads the same as an absent key. No other key is added or removed. |
| NodeTypes.ParseNodeType | Sources/JSSwift/JSSyntax.swift:1458-1465 | Reading a tag gives a node type only when that type's raw value is exactly the tag. |
| NodeTypes.ParseRawValue | Sources/JSSwift/JSSyntax.swift:1458-1465 | Every node type reads back from its raw value. |
| NodeTypes.RawValueInjective | Sources/JSSwift/JSSyntax.swift:1458-1465 | No two node types share a raw value, so a tag names one node type. |
| FieldKeys.ParseKeyName | Sources/JSSwift/JSSyntax.swift:10-1074 | Every property key reads back from its JSON name. |
| FieldKeys.KeyNameInjective | Sources/JSSwift/JSSyntax.swift:10-1074 | No two property keys share a JSON name, and no property is named `"type"`, so fields never collide with the tag. |
| JSSyntaxTables.SyntaxWellFormed | Sources/JSSwift/JSSyntax.swift:1077-1193 | Union nesting is finite. Every alternative is a tagged node, a union, or a JSON scalar or null. |
| JSSyntaxTables.FieldsDistinct | Sources/JSSwift/JSSyntax.swift:10-1074 | Each struct declares each property once. |
| JSSyntaxTables.OwnsKind | Sources/JSSwift/JSSyntax.swift:10-1074 | Looking up the struct for the node type of any struct but `Module` gives that struct back. `Module` is excluded because it shares `Program` with `Script`. |
| JSSyntaxTables.NotProgramAlt | Sources/JSSwift/JSSyntax.swift:1077-1193 | Neither `Script` nor `Module` is an alternative of any union. |
| JSSyntaxTables.SyntaxUnambiguous | Sources/JSSwift/JSSyntax.swift:10-1193 | All of these together: distinct property keys, unique raw values and key names, and one struct per tag within the unions. |
| CodableLaws.DecodedHasType | Sources/JSSwift/JSSyntax.swift:10-1193 | Whatever decodes at a type has that type's shape: the right struct with its fields, an alternative index within the union, and so on. |
| CodableLaws.MissingFieldFails | Sources/JSSwift/JSSyntax.swift:10-1074 | An object without one of a struct's keys does not decode as that struct. |
| CodableLaws.AcceptedTag | Sources/JSSwift/JSSyntax.swift:1077-1193 | An object that decodes at a node type or union carries the tag of one of the node types it admits. |
| CodableLaws.UnionHoldsStruct | Sources/JSSwift/JSSyntax.swift:1077-1193 | An object that decodes as a union decodes as one of the union's node structs. |
| CodableLaws.StructInUnion | Sources/JSSwift/JSSyntax.swift:1077-1193 | Conversely, an object that decodes as a member struct decodes as the union, when that struct is the only one with its tag. |
| CodableLaws.UnlistedTagRejected | Sources/JSSwift/JSSyntax.swift:1077-1193 | An object whose tag belongs to no node type the union admits is refused. |
| CodableLaws.FirstClaim | Sources/JSSwift/JSSyntax.swift:1077-1193 | First match: the alternative a union picks is the first one whose node types include the object's tag. |
| CodableLaws.EarlierRejects | Sources/JSSwift/JSSyntax.swift:1077-1193 | Every alternative before the chosen one refuses the re-encoded value. |
| CodableLaws.NullableFieldKept | Sources/JSSwift/JSSyntax.swift:1031 | A `Nullable` property is present after decoding and after re-encoding. It is null in the JSON exactly when the decoded value is null, and null in the encoding exactly when the value is null. |
| CodableLaws.ExplicitNullHole | Sources/JSSwift/JSSyntax.swift:1088-1096 | Null decodes as a union's `ExplicitNull` alternative when no earlier alternative accepts null. That alternative encodes back to null. |
| CodableLaws.Idempotent | Sources/JSSwift/JSSyntax.swift:10-1193 | Decoding the encoding of a decoded value gives the same value back. |
| CodableLaws.EncodedDecodes | Sources/JSSwift/JSSyntax.swift:10-1193 | The encoding of any value of the right shape decodes. |
| JSSyntaxLaws.DecodeIdempotent | Sources/JSSwift/JSSyntax.swift:10-1193 | For every struct and union of `JSSyntax`, the encoding of a decoded value decodes to that value. |
| JSSyntaxLaws.EncodingDecodes | Sources/JSSwift/JSSyntax.swift:10-1193 | Every well-shaped `JSSyntax` value's encoding decodes. |
| JSSyntaxLaws.TypeNameIsTag | Sources/JSSwift/JSSyntax.swift:1463-1506 | A decoded node's or union's `typeName` is the raw value of the node type it holds. That is the object's tag, and re-encoding keeps it. |
| JSSyntaxLaws.ProgramTagShared | Sources/JSSwift/JSSyntax.swift:9-33 | `Script` and `Module` both carry the node type whose raw value is `"Program"`. |
| JSSyntaxLaws.ScriptIsModule | Sources/JSSwift/JSSyntax.swift:9-33 | Every object that decodes as a `Script` also decodes as a `Module`, because a `ModuleItem` admits every `StatementListItem`. The tag cannot tell the two apart. |
| JSSyntaxLaws.UnionAccepts | Sources/JSSwift/JSSyntax.swift:1077-1193 | An object decodes as a union exactly when it decodes as a node struct whose node type the union admits. |
| JSSyntaxLaws.SoleOwner | Sources/JSSwift/JSSyntax.swift:10-1193 | Among the structs unions hold, a node type belongs to one struct. |
| JSSyntaxLaws.UnionRejects | Sources/JSSwift/JSSyntax.swift:1077-1193 | An object whose tag is a node type the union does not admit is refused. |
| JSSyntaxLaws.RawValuesDistinct | Sources/JSSwift/JSSyntax.swift:1458-1465 | Raw values of node types are pairwise distinct. |
| JSSyntaxLaws.StatementKindsExact | Sources/JSSwift/JSSyntax.swift:1164-1183 | `Statement` admits exactly its twenty node types. |
| JSSyntaxLaws.ExpressionKindsExact | Sources/JSSwift/JSSyntax.swift:1125-1148 | `Expression` admits exactly its twenty-four node types, from all three groups. |
| JSSyntaxLaws.StatementAcceptsExactly | Sources/JSSwift/JSSyntax.swift:1164-1183 | A `Statement` decodes exactly from an object that decodes as one of those twenty structs, and its tag names one of them. |
| JSSyntaxLaws.ExpressionAcceptsExactly | Sources/JSSwift/JSSyntax.swift:1125-1148 | An `Expression` decodes exactly from an object that decodes as one of those twenty-four structs, and its tag names one of them. |
| JSSyntaxLaws.StructsOnlyTags | Sources/JSSwift/JSSyntax.swift:1458-1465 | A node struct decodes only an object carrying its own tag. |
| JSSyntaxLaws.LabeledStatementIsNoStatement | Sources/JSSwift/JSSyntax.swift:1164-1183 | An object tagged `LabeledStatement` does not decode as a `Statement`. |
| JSSyntaxLaws.NoExpressionTags | Sources/JSSwift/JSSyntax.swift:1125-1148 | Objects tagged `MetaProperty`, `Super` or `TemplateLiteral` do not decode as an `Expression`. |
| JSSyntaxLaws.CalleeAdmitsImport | Sources/JSSwift/JSSyntax.swift:234-242 | An `Import` node is a valid `CallExpression.callee` but not an `Expression`. |
| JSSyntaxLaws.NullableFieldListed | Sources/JSSwift/JSSyntax.swift:508-1031 | `VariableDeclarator.init`, `IfStatement.alternate`, `ForStatement.init/test/update` and `ReturnStatement.argument` are `Nullable` properties under those keys. |
| JSSyntaxLaws.NullableFieldKeptAsNull | Sources/JSSwift/JSSyntax.swift:508-1031 | Each of these properties is present after decoding. It is null exactly when the decoded value is the explicit null, and re-encoding writes the key, null exactly then. |
| JSSyntaxLaws.NullableFieldRequired | Sources/JSSwift/JSSyntax.swift:508-1031 | An object missing one of these keys does not decode: absence is not null. |
| JSSyntaxLaws.ArrayExpressionHole | Sources/JSSwift/JSSyntax.swift:1088-1090 | JSON null in an array literal decodes as the `ExplicitNull` case and encodes back to null. |
| JSSyntaxLaws.ArrayPatternHole | Sources/JSSwift/JSSyntax.swift:1092-1096 | JSON null in an array pattern decodes as the `ExplicitNull` case and encodes back to null. |
| JSSyntaxLaws.MethodValueNull | Sources/JSSwift/JSSyntax.swift:705 | A `MethodDefinition.value` of null decodes as the `ExplicitNull` case and encodes back to null. |
| JSSyntaxLaws.ExportDeclarationKindsExact | Sources/JSSwift/JSSyntax.swift:1121-1123 | `ExportDeclaration` admits exactly the three export node types. |
| JSSyntaxLaws.FunctionDeclarationIsDeclaration | Sources/JSSwift/JSSyntax.swift:1078-1108 | In a statement list, a function declaration is taken by `Declaration` (its fourth alternative), the first alternative of `StatementListItem`. |
| JSSyntaxLaws.FunctionDeclarationIsStatement | Sources/JSSwift/JSSyntax.swift:1164-1183 | `Statement` accepts every function declaration too, so the two unions overlap. |
| Location.DecodedPositionValid | Sources/JSSwift/JSSyntax.swift:1427-1435 | A decoded `Position` holds only 64-bit line and column numbers. |
| Location.PositionRoundTrip | Sources/JSSwift/JSSyntax.swift:1427-1435 | Every valid `Position` decodes back from its encoding. |
| Location.NoPositionIsEmpty | Sources/JSSwift/JSSyntax.swift:1427-1435 | A `Position` with neither line nor column encodes as `{}`. An object whose keys all hold null decodes to that position. |
| Location.LocationRoundTrip | Sources/JSSwift/JSSyntax.swift:1437-1446 | Every valid `SourceLocation` decodes back from its encoding. |
| Location.LocationNeedsEnds | Sources/JSSwift/JSSyntax.swift:1437-1446 | A location without `start` or `end` does not decode. |
| Tokens.RawValueParses | Sources/JSSwift/JSSyntax.swift:1333-1344 | Kind to raw string to kind is the identity, and a string parses to a kind only if it is that kind's raw value. |
| Tokens.RawValueInjective | Sources/JSSwift/JSSyntax.swift:1333-1344 | Token raw strings are pairwise distinct. |
| Tokens.UnknownTokenTypeRejected | Sources/JSSwift/JSSyntax.swift:1333-1361 | A token whose `type` is no raw value does not decode. |
| Tokens.DecodedRangeOrdered | Sources/JSSwift/JSSyntax.swift:1359 | A decoded `ClosedRange` has lower bound at most upper bound, read from the two array items. |
| Tokens.InvertedRangeRejected | Sources/JSSwift/JSSyntax.swift:1359 | A range array whose lower bound exceeds its upper bound does not decode. |
| Tokens.RangeRoundTrip | Sources/JSSwift/JSSyntax.swift:1359 | Every valid range decodes back from its encoding. |
| Tokens.DecodedTokenValid | Sources/JSSwift/JSSyntax.swift:1347-1361 | A decoded token's range is ordered and its numbers are 64-bit. |
| Tokens.TokenRoundTrip | Sources/JSSwift/JSSyntax.swift:1347-1361 | Every valid token decodes back from its encoding. |
| Messages.SharedUnexpectedToken | Sources/JSSwift/JSSyntax.swift:1263-1327 | `errorDescription` is not one to one: seven messages share "Unexpected token". |
| ErrorHandling.Digits | Sources/JSSwift/JSSyntax.swift:1406 | The decimal rendering of a natural number is a non-empty run of digits. |
| ErrorHandling.DecimalRoundTrip | Sources/JSSwift/JSSyntax.swift:1406 | The interpolated line number loses nothing: every `Int` reads back from its rendering. |
| ErrorHandling.CreateError | Sources/JSSwift/JSSyntax.swift:1405-1407 | `createError` copies index, line, column and description. It has an empty name, and its message is "Line " + line + ": " + the message's case name. |
| ErrorHandling.MessageNamesLine | Sources/JSSwift/JSSyntax.swift:1405-1407 | Reading the number after "Line " in a created message gives back its line, and the message ends with the case name. |
| Messages.CaseNameIsNotDescription | Sources/JSSwift/JSSyntax.swift:1263-1327 | The case name Swift interpolates for a message differs from that message's own `errorDescription` text. |
| ErrorHandling.ErrorHandler.constructor | Sources/JSSwift/JSSyntax.swift:1388-1391 | A new handler has no errors and is not tolerant. |
| ErrorHandling.ErrorHandler.RecordError | Sources/JSSwift/JSSyntax.swift:1393-1395 | Appends exactly the error at the end and leaves `tolerant` alone. |
| ErrorHandling.ErrorHandler.Tolerate | Sources/JSSwift/JSSyntax.swift:1397-1403 | Tolerant: appends the error and does not throw. Otherwise: throws it and leaves `errors` unchanged. |
| ErrorHandling.ErrorHandler.ThrowError | Sources/JSSwift/JSSyntax.swift:1409-1411 | Always throws the created error and records nothing. |
| ErrorHandling.ErrorHandler.TolerateError | Sources/JSSwift/JSSyntax.swift:1413-1420 | `Tolerate` applied to the created error, with the same two outcomes. |
| ESTreeNodeTypes.ParseNodeType | Sources/JSSwift/ESTree.swift:45-848 | A tag reads as a node type only when it is that type's raw value. |
| ESTreeNodeTypes.ParseTag | Sources/JSSwift/ESTree.swift:45-848 | Every ES5 node type reads back from its tag. |
| ESTree.ArrayOk | Sources/JSSwift/ESTree.swift:92-100 | A JSON array decodes exactly when each item does, and then item by item in order. |
| ESTree.ArrayRoundTrip | Sources/JSSwift/ESTree.swift:92-100 | An array whose items each read back reads back as a whole. |
| ESTree.IntsRoundTrip | Sources/JSSwift/ESTree.swift:50 | A `range` array of 64-bit numbers reads back from its encoding. |
| ESTree.DecodedIntsValid | Sources/JSSwift/ESTree.swift:50 | A decoded `range` holds only 64-bit numbers. |
| ESTree.NodeAccepts | Sources/JSSwift/ESTree.swift:45-51 | A node decodes exactly when the JSON is an object with its tag and well-formed optional `loc`/`range`. The result has that node type. |
| ESTree.NodeRoundTrip | Sources/JSSwift/ESTree.swift:45-51 | Every valid node decodes back from its encoding, including its metadata. |
| ESTree.MetadataIndependent | Sources/JSSwift/ESTree.swift:45-100 | A node built from its tag alone has no `loc` or `range` and encodes as `{"type": tag}`. Setting `loc` and `range` commutes, and both come back after a round trip, with the tag unchanged. |
| ESTree.DirectiveTag | Sources/JSSwift/ESTree.swift:159-170 | `Directive`'s tag is "Directive". An object tagged "ExpressionStatement", as the quoted ESTree interface says, is not a `Directive`. |
| ESTree.AltsAccept | Sources/JSSwift/ESTree.swift:111-846 | The alternatives from a given position accept exactly the objects tagged with one of their member node types. The value picked holds that object's node. |
| ESTree.UnionAccepts | Sources/JSSwift/ESTree.swift:111-846 | A union decodes exactly the objects with valid metadata whose tag is one of its member node types. |
| ESTree.UnlistedTagRejected | Sources/JSSwift/ESTree.swift:111-846 | A tag of a node type outside the union is refused. |
| ESTree.UnknownTagRejected | Sources/JSSwift/ESTree.swift:111-846 | A tag that names no ES5 node type is refused by every union. |
| ESTree.DecodedNode | Sources/JSSwift/ESTree.swift:111-846 | A decoded union value holds a member node, and it is exactly the node the object decodes to. |
| ESTree.StatementMembers | Sources/JSSwift/ESTree.swift:121-481 | `Statement` admits its 18 structs, `LabeledStatement` included and `ForOfStatement` not, plus `FunctionDeclaration` and `VariableDeclaration`. |
| ESTree.ExpressionMembers | Sources/JSSwift/ESTree.swift:534-549 | `Expression` admits exactly its 16 structs, with `LogicalExpression`, `MemberExpression` and `RegExpLiteral` among them. |
| ESTree.SmallUnionMembers | Sources/JSSwift/ESTree.swift:111-846 | `Declaration`, `Pattern` and `Function` admit exactly their two structs each. |
| ESTree.ProgramBodyMembers | Sources/JSSwift/ESTree.swift:96-139 | A `Program` body item admits exactly what `Statement` admits. |
| ESTree.DeclarationInStatement | Sources/JSSwift/ESTree.swift:139-481 | Every `Declaration` member is a `Statement` member. |
| ESTree.ProgramBodySplit | Sources/JSSwift/ESTree.swift:96 | A body item admits the `Declaration` members together with the `Statement` members. |
| ESTree.ForOfStatementRejected | Sources/JSSwift/ESTree.swift:121-139 | An object tagged "ForOfStatement" is not a `Statement`. |
| ESTree.UnionIdempotent | Sources/JSSwift/ESTree.swift:111-846 | Re-decoding the encoding of a decoded union value gives the same value. |
| ESTree.ProgramBodyKept | Sources/JSSwift/ESTree.swift:92-100 | A decoded program's body has as many items as the JSON `body` array. Each item is that array item's decoding, in order. |
| ESTree.BodyIdempotent | Sources/JSSwift/ESTree.swift:96 | Re-decoding the encoding of a decoded body gives the same items. |
| ESTree.ProgramIdempotent | Sources/JSSwift/ESTree.swift:92-100 | Re-decoding the encoding of a decoded program gives the same program. |
| ESTree.BodyPrefersDeclaration | Sources/JSSwift/ESTree.swift:96-481 | First match: a function declaration in a body is held as a `Declaration`, never through `Statement`. |

## Left out

- **Foreign calls and I/O.** `JavaScriptParser`, `tokenize`, `parse`,
  `installJSSwift` and `parseESTree` call esprima inside a JXKit JavaScript
  context and load bundle resources. The model starts from the JSON these
  calls return.
- **Lexing and parsing.** These are done by esprima, outside the repository's
  Swift code.
- **The BricBrac library** (`OneOf2`…`OneOf10`, `Nullable`, `ExplicitNull`,
  `Bric`) is not part of this model. Its semantics are modelled instead:
  - first-success alternatives in declaration order;
  - a required key that may hold null;
  - a null-only alternative;
  - any JSON value.
- **`Config`** is an unused record.
- **Floating point.** A non-integral JSON number, such as `Literal`'s `Double`
  alternative, is kept as its text. An integral one is kept as its value,
  whatever its written form. `RegexLiteral.value` is any JSON value.
- **`JSSyntaxAST`/`JSSyntaxNode` protocols** are only conformance
  declarations. Their one operation, `typeName`, is modelled as `TypeName`.
- **Tests.** The fixture comparisons against esprima output are left out, as
  are the JavaScript-context instance counters and the concrete parse results
  for `1.2 + 'ABC'`. Those parse results depend on the engine's output and on
  `Double` values. What they exercise (a `Script` holding a `Statement`
  holding an `Expression`) is covered by the union and idempotence lemmas for
  all inputs.
- **Error payloads.** A failed `OneOf` is `NoAlternative` with each
  alternative's own error, in order. A failed tag check is a single-tag
  `TagMismatch`. The lemmas state when decoding fails, not the exact error.
  - A single `TagMismatch` naming every tag a union accepts is not produced.
    BricBrac's actual error is not modelled.
- **Script and Module.** The JSON tag cannot tell a `Script` from a `Module`.
  The model proves that every `Script` input also decodes as a `Module`. The
  restriction of import and export declarations to modules is enforced by the
  parser, not by the schema, and is not modelled.
- **CodableLaws.Idempotent, JSSyntaxLaws.DecodeIdempotent and
  ESTree.ProgramIdempotent** state the round trip as idempotence of
  decoding, not as `decode(encode(v)) == v`. That equation is false for
  values built on a later one of two overlapping alternatives, as
  `BodyPrefersDeclaration` shows.
- **Messages.CaseNameIsNotDescription** compares a message's case name
  with that same message's description only. Comparing it with every other
  description too means searching each long text literal, and that is left
  out. It also does not prove that case names are pairwise distinct. The
  enumeration makes them so, but no lemma needs that.
- **Json.DecodeInt** does not parse number text. Swift's `Int` decoding
  accepts `1.0` and `1e2`, because their values are integral. The model
  captures this only through the by-value `Number`: every integral number is
  an `Integer`, whatever its written form, and the model has no written form
  to get wrong.
