/** What the `JSSyntax` Codable conformances promise: the synthesised decoders
    that JXKit's `toDecodable(ofType:)` runs on esprima's output, as instances
    of the generic codec laws over the syntax tables. */
module JSSyntaxLaws {
  import opened Json
  import opened Codable
  import opened CodableLaws
  import opened NodeTypes
  import opened FieldKeys
  import opened JSSyntax
  import opened JSSyntaxTables

  /** The synthesised `Codable` decoding of `j` as the syntax type `ty`. */
  function DecodeAs(ty: SyntaxType, j: Json): Result<Node> {
    SyntaxWellFormed();
    Decode(Syntax, ty, j)
  }

  /** The synthesised `Codable` encoding of a syntax tree `v`. */
  function EncodeNode(v: Node): Json {
    Encode(Syntax, v)
  }

  /** The node types whose objects union `u` accepts. */
  ghost function UnionKinds(u: UnionName): set<NodeType> {
    SyntaxWellFormed();
    Kinds(Syntax, UnionType(u))
  }

  // ---------------------------------------------------------------------------
  // Round trip
  // ---------------------------------------------------------------------------

  /** Re-decoding the encoding of a decoded tree gives the same tree: the union
      alternatives a decode picked are the ones it picks again. */
  lemma DecodeIdempotent(ty: SyntaxType, j: Json, v: Node)
    requires DecodeAs(ty, j) == Ok(v)
    ensures DecodeAs(ty, EncodeNode(v)) == Ok(v)
  {
    SyntaxWellFormed();
    SyntaxUnambiguous();
    Idempotent(Syntax, ty, j, v);
  }

  /** Whatever the encoder writes for a well-typed tree decodes again. */
  lemma EncodingDecodes(ty: SyntaxType, v: Node)
    requires HasType(Syntax, v, ty)
    ensures DecodeAs(ty, EncodeNode(v)).Ok?
  {
    SyntaxWellFormed();
    SyntaxUnambiguous();
    EncodedDecodes(Syntax, ty, v);
  }

  // ---------------------------------------------------------------------------
  // Tags and typeName
  // ---------------------------------------------------------------------------

  /** A node decoded from an object is one struct, whose node-type raw value the
      object carries under "type"; its `typeName`, and that of every union
      holding it, is that raw value, and encoding writes it back. */
  lemma TypeNameIsTag(ty: SyntaxType, j: Json, v: Node)
    requires j.JObject? && (ty.UnionType? || (ty.StructType? && KindOf(ty.s).Some?))
    requires DecodeAs(ty, j) == Ok(v)
    ensures Underlying(v).Some? && KindOf(Underlying(v).value).Some?
    ensures TagOf(j) == Ok(RawValue(KindOf(Underlying(v).value).value))
    ensures TypeName(Syntax, v) == Some(RawValue(KindOf(Underlying(v).value).value))
    ensures TagOf(EncodeNode(v)) == TagOf(j)
  {
    SyntaxWellFormed();
    assert AltShape(Syntax, ty);
    DecodedObject(Syntax, ty, j, v);
    var s := Underlying(v).value;
    assert Tag(Syntax, s) == Some(RawValue(KindOf(s).value));
    EncodedTag(Syntax, v);
  }

  /** `Script` and `Module` carry the same tag, "Program", so the tag alone cannot
      tell a script from a module. */
  lemma ProgramTagShared()
    ensures KindOf(Script) == KindOf(Module) == Some(ProgramNodeType)
    ensures RawValue(ProgramNodeType) == "Program"
  {
    ProgramNodeTypeParses();
  }

  /** Every script decodes as a module too: a module body item may be any
      script body item. */
  lemma ScriptIsModule(j: Json)
    requires DecodeAs(StructType(Script), j).Ok?
    ensures DecodeAs(StructType(Module), j).Ok?
  {
    SyntaxWellFormed();
    var vs := DecodeAs(StructType(Script), j).value.fields;
    var fs := FieldsOf(Script);
    DecodeFieldsOk(Syntax, fs, 0, j, vs);
    var body := j.fields["body"];
    assert Decode(Syntax, ArrayType(UnionType(StatementListItem)), body).Ok?;
    var items := DecodeItems(Syntax, UnionType(StatementListItem), body, 0).value;
    DecodeItemsOk(Syntax, UnionType(StatementListItem), body, 0, items);
    forall a | 0 <= a < |body.items|
      ensures Decode(Syntax, UnionType(ModuleItem), body.items[a]).Ok?
    {
      assert AltsOf(ModuleItem)[2] == UnionType(StatementListItem);
      DecodeAltsAny(Syntax, ModuleItem, 0, body.items[a], [], 2);
    }
    var mitems := seq(|body.items|, a requires 0 <= a < |body.items| =>
      Decode(Syntax, UnionType(ModuleItem), body.items[a]).value);
    DecodeItemsFrom(Syntax, UnionType(ModuleItem), body, 0, mitems);
    var mvs := [VArray(mitems), vs[1]];
    DecodeFieldsFrom(Syntax, FieldsOf(Module), 0, j, mvs);
  }

  // ---------------------------------------------------------------------------
  // What a union accepts
  // ---------------------------------------------------------------------------

  /** An object decodes as union `u` exactly when it decodes as a node struct
      whose node type `u` accepts. */
  lemma UnionAccepts(u: UnionName, j: Json)
    requires j.JObject?
    ensures DecodeAs(UnionType(u), j).Ok? <==>
      exists s :: KindOf(s).Some? && KindOf(s).value in UnionKinds(u) && DecodeAs(StructType(s), j).Ok?
  {
    SyntaxWellFormed();
    if DecodeAs(UnionType(u), j).Ok? {
      UnionHoldsStruct(Syntax, u, j);
    }
    if exists s :: KindOf(s).Some? && KindOf(s).value in UnionKinds(u) && DecodeAs(StructType(s), j).Ok? {
      var s :| KindOf(s).Some? && KindOf(s).value in UnionKinds(u) && DecodeAs(StructType(s), j).Ok?;
      SoleOwner(s);
      StructInUnion(Syntax, u, s, j);
    }
  }

  /** No union alternative shares its tag with another struct: only `Script` and
      `Module` share a tag, and neither is an alternative. */
  lemma SoleOwner(s: StructName)
    requires KindOf(s).Some?
    ensures forall s' | InUnion(Syntax, s') && KindOf(s') == KindOf(s) :: s' == s
  {
    forall s' | InUnion(Syntax, s') && KindOf(s') == KindOf(s)
      ensures s' == s
    {
      NotProgramAlt(s');
      SameKindSameStruct(s, s');
    }
  }

  lemma SameKindSameStruct(s: StructName, s': StructName)
    requires KindOf(s).Some? && KindOf(s') == KindOf(s) && s' != Script && s' != Module
    ensures s' == s
  {
    if s == Module {
      ProgramKindOwners(s');
    } else {
      OwnsKind(s);
      OwnsKind(s');
    }
  }

  /** Only `Script` and `Module` carry the `Program` node type. */
  lemma ProgramKindOwners(s: StructName)
    requires KindOf(s) == Some(ProgramNodeType)
    ensures s == Script || s == Module
  {
    match s
    case Script =>
    case Module =>
    case ArrayExpression =>
    case ArrayPattern =>
    case ArrowFunctionExpression =>
    case AssignmentExpression =>
    case AssignmentPattern =>
    case AsyncArrowFunctionExpression =>
    case AsyncFunctionDeclaration =>
    case AsyncFunctionExpression =>
    case AwaitExpression =>
    case BinaryExpression =>
    case BlockStatement =>
    case BreakStatement =>
    case CallExpression =>
    case CatchClause =>
    case ClassBody =>
    case ClassDeclaration =>
    case ClassExpression =>
    case ComputedMemberExpression =>
    case ConditionalExpression =>
    case ContinueStatement =>
    case DebuggerStatement =>
    case Directive =>
    case DoWhileStatement =>
    case EmptyStatement =>
    case ExportAllDeclaration =>
    case ExportDefaultDeclaration =>
    case ExportNamedDeclaration =>
    case ExportSpecifier =>
    case ExpressionStatement =>
    case ForInStatement =>
    case ForOfStatement =>
    case ForStatement =>
    case FunctionDeclaration =>
    case FunctionExpression =>
    case Identifier =>
    case IfStatement =>
    case Import =>
    case ImportDeclaration =>
    case ImportDefaultSpecifier =>
    case ImportNamespaceSpecifier =>
    case ImportSpecifier =>
    case LabeledStatement =>
    case Literal =>
    case MetaProperty =>
    case MethodDefinition =>
    case NewExpression =>
    case ObjectExpression =>
    case ObjectPattern =>
    case Property =>
    case RegexLiteral =>
    case RestElement =>
    case ReturnStatement =>
    case SequenceExpression =>
    case SpreadElement =>
    case StaticMemberExpression =>
    case Super =>
    case SwitchCase =>
    case SwitchStatement =>
    case TaggedTemplateExpression =>
    case TemplateElement =>
    case TemplateLiteral =>
    case ThisExpression =>
    case ThrowStatement =>
    case TryStatement =>
    case UnaryExpression =>
    case UpdateExpression =>
    case VariableDeclaration =>
    case VariableDeclarator =>
    case WhileStatement =>
    case WithStatement =>
    case YieldExpression =>
    case _ =>
  }

  /** An object tagged with a node type that union `u` does not accept fails to
      decode as `u`. */
  lemma UnionRejects(u: UnionName, k: NodeType, j: Json)
    requires k !in UnionKinds(u) && TagOf(j) == Ok(RawValue(k))
    ensures DecodeAs(UnionType(u), j).Err?
  {
    SyntaxWellFormed();
    RawValuesDistinct();
    UnlistedTagRejected(Syntax, UnionType(u), k, j);
  }

  lemma RawValuesDistinct()
    ensures forall k1, k2 | RawValue(k1) == RawValue(k2) :: k1 == k2
  {
    forall k1, k2 | RawValue(k1) == RawValue(k2)
      ensures k1 == k2
    {
      RawValueInjective(k1, k2);
    }
  }

  /** The node types of the `Statement` union, in the order it lists them. */
  const StatementKinds: set<NodeType> := {
      BlockStatementNodeType, BreakStatementNodeType, ContinueStatementNodeType,
      DebuggerStatementNodeType, DoWhileStatementNodeType, EmptyStatementNodeType,
      ForStatementNodeType, ExpressionStatementNodeType, DirectiveNodeType,
      ForInStatementNodeType, ForOfStatementNodeType, FunctionDeclarationNodeType,
      IfStatementNodeType, ReturnStatementNodeType, SwitchStatementNodeType,
      ThrowStatementNodeType, TryStatementNodeType, VariableDeclarationNodeType,
      WhileStatementNodeType, WithStatementNodeType
    }

  /** The node types of the `Expression` union, in the order it lists them. */
  const ExpressionKinds: set<NodeType> := {
      ArrayExpressionNodeType, ArrowFunctionExpressionNodeType, AssignmentExpressionNodeType,
      AsyncArrowFunctionExpressionNodeType, AsyncFunctionExpressionNodeType, AwaitExpressionNodeType,
      BinaryExpressionNodeType, CallExpressionNodeType, ClassExpressionNodeType,
      ComputedMemberExpressionNodeType, ConditionalExpressionNodeType, IdentifierNodeType,
      FunctionExpressionNodeType, LiteralNodeType, NewExpressionNodeType,
      ObjectExpressionNodeType, RegexLiteralNodeType, SequenceExpressionNodeType,
      StaticMemberExpressionNodeType, TaggedTemplateExpressionNodeType, ThisExpressionNodeType,
      UnaryExpressionNodeType, UpdateExpressionNodeType, YieldExpressionNodeType
    }

  /** `Statement` accepts exactly its twenty node types. */
  lemma StatementKindsExact()
    ensures UnionKinds(Statement) == StatementKinds
  {
    SyntaxWellFormed();
    assert UnionKinds(Statement) == AltKinds(Syntax, Statement, 0);
    StatementKindsFrom0();
    StatementKindsFrom4();
    StatementKindsUpper();
  }

  /** `Expression` accepts exactly its twenty-four node types. */
  lemma ExpressionKindsExact()
    ensures UnionKinds(Expression) == ExpressionKinds
  {
    SyntaxWellFormed();
    assert UnionKinds(Expression) == AltKinds(Syntax, Expression, 0);
    ExpressionKindsLower();
    ExpressionKindsUpper();
  }

  lemma StatementKindsUpper()
    requires WellFormed(Syntax)
    ensures AltKinds(Syntax, Statement, 8) == {
      DirectiveNodeType, ForInStatementNodeType, ForOfStatementNodeType,
      FunctionDeclarationNodeType, IfStatementNodeType, ReturnStatementNodeType,
      SwitchStatementNodeType, ThrowStatementNodeType, TryStatementNodeType,
      VariableDeclarationNodeType, WhileStatementNodeType, WithStatementNodeType
    }
  {
    StatementKindsFrom8();
    StatementKindsFrom12();
    StatementKindsFrom16();
  }

  lemma ExpressionKindsLower()
    requires WellFormed(Syntax)
    ensures AltKinds(Syntax, Expression, 0) == {
      ArrayExpressionNodeType, ArrowFunctionExpressionNodeType, AssignmentExpressionNodeType,
      AsyncArrowFunctionExpressionNodeType, AsyncFunctionExpressionNodeType,
      AwaitExpressionNodeType, BinaryExpressionNodeType, CallExpressionNodeType,
      ClassExpressionNodeType, ComputedMemberExpressionNodeType, ConditionalExpressionNodeType,
      IdentifierNodeType
    } + AltKinds(Syntax, Expression, 12)
  {
    ExpressionKindsFrom0();
    ExpressionKindsFrom4();
    ExpressionKindsFrom8();
  }

  lemma ExpressionKindsUpper()
    requires WellFormed(Syntax)
    ensures AltKinds(Syntax, Expression, 12) == {
      FunctionExpressionNodeType, LiteralNodeType, NewExpressionNodeType, ObjectExpressionNodeType,
      RegexLiteralNodeType, SequenceExpressionNodeType, StaticMemberExpressionNodeType,
      TaggedTemplateExpressionNodeType, ThisExpressionNodeType, UnaryExpressionNodeType,
      UpdateExpressionNodeType, YieldExpressionNodeType
    }
  {
    ExpressionKindsFrom12();
    ExpressionKindsFrom16();
    ExpressionKindsFrom20();
  }

  lemma StatementKindsFrom0()
    requires WellFormed(Syntax)
    ensures AltKinds(Syntax, Statement, 0) == {BlockStatementNodeType, BreakStatementNodeType, ContinueStatementNodeType, DebuggerStatementNodeType} + AltKinds(Syntax, Statement, 4)
  {
    StatementAlt0();
    StatementAlt1();
    StatementAlt2();
    StatementAlt3();
  }

  lemma StatementKindsFrom4()
    requires WellFormed(Syntax)
    ensures AltKinds(Syntax, Statement, 4) == {DoWhileStatementNodeType, EmptyStatementNodeType, ForStatementNodeType, ExpressionStatementNodeType} + AltKinds(Syntax, Statement, 8)
  {
    StatementAlt4();
    StatementAlt5();
    StatementAlt6();
    StatementAlt7();
  }

  lemma StatementKindsFrom8()
    requires WellFormed(Syntax)
    ensures AltKinds(Syntax, Statement, 8) == {DirectiveNodeType, ForInStatementNodeType, ForOfStatementNodeType, FunctionDeclarationNodeType} + AltKinds(Syntax, Statement, 12)
  {
    StatementAlt8();
    StatementAlt9();
    StatementAlt10();
    StatementAlt11();
  }

  lemma StatementKindsFrom12()
    requires WellFormed(Syntax)
    ensures AltKinds(Syntax, Statement, 12) == {IfStatementNodeType, ReturnStatementNodeType, SwitchStatementNodeType, ThrowStatementNodeType} + AltKinds(Syntax, Statement, 16)
  {
    StatementAlt12();
    StatementAlt13();
    StatementAlt14();
    StatementAlt15();
  }

  lemma StatementKindsFrom16()
    requires WellFormed(Syntax)
    ensures AltKinds(Syntax, Statement, 16) == {TryStatementNodeType, VariableDeclarationNodeType, WhileStatementNodeType, WithStatementNodeType}
  {
    StatementAlt16();
    StatementAlt17();
    StatementAlt18();
    StatementAlt19();
    assert AltKinds(Syntax, Statement, 20) == {};
  }

  // Table facts, one per alternative, generated from the `JSSyntaxTables` alternatives. Each reads
  // off one entry of the alternatives list; the proof is in the chunk lemmas
  // that chain them, so most of these need no body.

  lemma StatementAlt0()
    requires WellFormed(Syntax)
    ensures AltKinds(Syntax, Statement, 0) == {BlockStatementNodeType} + AltKinds(Syntax, Statement, 1)
  {
    assert Syntax.alts(Statement)[0] == StructType(BlockStatement);
    assert Syntax.kind(BlockStatement) == Some(BlockStatementNodeType);
    AltKindsStep(Syntax, Statement, 0, BlockStatement, BlockStatementNodeType);
  }

  lemma StatementAlt1()
    requires WellFormed(Syntax)
    ensures AltKinds(Syntax, Statement, 1) == {BreakStatementNodeType} + AltKinds(Syntax, Statement, 2)
  {
    assert Syntax.alts(Statement)[1] == StructType(BreakStatement);
    assert Syntax.kind(BreakStatement) == Some(BreakStatementNodeType);
    AltKindsStep(Syntax, Statement, 1, BreakStatement, BreakStatementNodeType);
  }

  lemma StatementAlt2()
    requires WellFormed(Syntax)
    ensures AltKinds(Syntax, Statement, 2) == {ContinueStatementNodeType} + AltKinds(Syntax, Statement, 3)
  {
    assert Syntax.alts(Statement)[2] == StructType(ContinueStatement);
    assert Syntax.kind(ContinueStatement) == Some(ContinueStatementNodeType);
    AltKindsStep(Syntax, Statement, 2, ContinueStatement, ContinueStatementNodeType);
  }

  lemma StatementAlt3()
    requires WellFormed(Syntax)
    ensures AltKinds(Syntax, Statement, 3) == {DebuggerStatementNodeType} + AltKinds(Syntax, Statement, 4)
  {
    assert Syntax.alts(Statement)[3] == StructType(DebuggerStatement);
    assert Syntax.kind(DebuggerStatement) == Some(DebuggerStatementNodeType);
    AltKindsStep(Syntax, Statement, 3, DebuggerStatement, DebuggerStatementNodeType);
  }

  lemma StatementAlt4()
    requires WellFormed(Syntax)
    ensures AltKinds(Syntax, Statement, 4) == {DoWhileStatementNodeType} + AltKinds(Syntax, Statement, 5)
  {
    assert Syntax.alts(Statement)[4] == StructType(DoWhileStatement);
    assert Syntax.kind(DoWhileStatement) == Some(DoWhileStatementNodeType);
    AltKindsStep(Syntax, Statement, 4, DoWhileStatement, DoWhileStatementNodeType);
  }

  lemma StatementAlt5()
    requires WellFormed(Syntax)
    ensures AltKinds(Syntax, Statement, 5) == {EmptyStatementNodeType} + AltKinds(Syntax, Statement, 6)
  {
    assert Syntax.alts(Statement)[5] == StructType(EmptyStatement);
    assert Syntax.kind(EmptyStatement) == Some(EmptyStatementNodeType);
    AltKindsStep(Syntax, Statement, 5, EmptyStatement, EmptyStatementNodeType);
  }

  lemma StatementAlt6()
    requires WellFormed(Syntax)
    ensures AltKinds(Syntax, Statement, 6) == {ForStatementNodeType} + AltKinds(Syntax, Statement, 7)
  {
    assert Syntax.alts(Statement)[6] == StructType(ForStatement);
    assert Syntax.kind(ForStatement) == Some(ForStatementNodeType);
    AltKindsStep(Syntax, Statement, 6, ForStatement, ForStatementNodeType);
  }

  lemma StatementAlt7()
    requires WellFormed(Syntax)
    ensures AltKinds(Syntax, Statement, 7) == {ExpressionStatementNodeType} + AltKinds(Syntax, Statement, 8)
  {
    assert Syntax.alts(Statement)[7] == StructType(ExpressionStatement);
    assert Syntax.kind(ExpressionStatement) == Some(ExpressionStatementNodeType);
    AltKindsStep(Syntax, Statement, 7, ExpressionStatement, ExpressionStatementNodeType);
  }

  lemma StatementAlt8()
    requires WellFormed(Syntax)
    ensures AltKinds(Syntax, Statement, 8) == {DirectiveNodeType} + AltKinds(Syntax, Statement, 9)
  {
    assert Syntax.alts(Statement)[8] == StructType(Directive);
    assert Syntax.kind(Directive) == Some(DirectiveNodeType);
    AltKindsStep(Syntax, Statement, 8, Directive, DirectiveNodeType);
  }

  lemma StatementAlt9()
    requires WellFormed(Syntax)
    ensures AltKinds(Syntax, Statement, 9) == {ForInStatementNodeType} + AltKinds(Syntax, Statement, 10)
  {
    assert Syntax.alts(Statement)[9] == StructType(ForInStatement);
    assert Syntax.kind(ForInStatement) == Some(ForInStatementNodeType);
    AltKindsStep(Syntax, Statement, 9, ForInStatement, ForInStatementNodeType);
  }

  lemma StatementAlt10()
    requires WellFormed(Syntax)
    ensures AltKinds(Syntax, Statement, 10) == {ForOfStatementNodeType} + AltKinds(Syntax, Statement, 11)
  {
    assert Syntax.alts(Statement)[10] == StructType(ForOfStatement);
    assert Syntax.kind(ForOfStatement) == Some(ForOfStatementNodeType);
    AltKindsStep(Syntax, Statement, 10, ForOfStatement, ForOfStatementNodeType);
  }

  lemma StatementAlt11()
    requires WellFormed(Syntax)
    ensures AltKinds(Syntax, Statement, 11) == {FunctionDeclarationNodeType} + AltKinds(Syntax, Statement, 12)
  {
    assert Syntax.alts(Statement)[11] == StructType(FunctionDeclaration);
    assert Syntax.kind(FunctionDeclaration) == Some(FunctionDeclarationNodeType);
    AltKindsStep(Syntax, Statement, 11, FunctionDeclaration, FunctionDeclarationNodeType);
  }

  lemma StatementAlt12()
    requires WellFormed(Syntax)
    ensures AltKinds(Syntax, Statement, 12) == {IfStatementNodeType} + AltKinds(Syntax, Statement, 13)
  {
    assert Syntax.alts(Statement)[12] == StructType(IfStatement);
    assert Syntax.kind(IfStatement) == Some(IfStatementNodeType);
    AltKindsStep(Syntax, Statement, 12, IfStatement, IfStatementNodeType);
  }

  lemma StatementAlt13()
    requires WellFormed(Syntax)
    ensures AltKinds(Syntax, Statement, 13) == {ReturnStatementNodeType} + AltKinds(Syntax, Statement, 14)
  {
    assert Syntax.alts(Statement)[13] == StructType(ReturnStatement);
    assert Syntax.kind(ReturnStatement) == Some(ReturnStatementNodeType);
    AltKindsStep(Syntax, Statement, 13, ReturnStatement, ReturnStatementNodeType);
  }

  lemma StatementAlt14()
    requires WellFormed(Syntax)
    ensures AltKinds(Syntax, Statement, 14) == {SwitchStatementNodeType} + AltKinds(Syntax, Statement, 15)
  {
    assert Syntax.alts(Statement)[14] == StructType(SwitchStatement);
    assert Syntax.kind(SwitchStatement) == Some(SwitchStatementNodeType);
    AltKindsStep(Syntax, Statement, 14, SwitchStatement, SwitchStatementNodeType);
  }

  lemma StatementAlt15()
    requires WellFormed(Syntax)
    ensures AltKinds(Syntax, Statement, 15) == {ThrowStatementNodeType} + AltKinds(Syntax, Statement, 16)
  {
    assert Syntax.alts(Statement)[15] == StructType(ThrowStatement);
    assert Syntax.kind(ThrowStatement) == Some(ThrowStatementNodeType);
    AltKindsStep(Syntax, Statement, 15, ThrowStatement, ThrowStatementNodeType);
  }

  lemma StatementAlt16()
    requires WellFormed(Syntax)
    ensures AltKinds(Syntax, Statement, 16) == {TryStatementNodeType} + AltKinds(Syntax, Statement, 17)
  {
    assert Syntax.alts(Statement)[16] == StructType(TryStatement);
    assert Syntax.kind(TryStatement) == Some(TryStatementNodeType);
    AltKindsStep(Syntax, Statement, 16, TryStatement, TryStatementNodeType);
  }

  lemma StatementAlt17()
    requires WellFormed(Syntax)
    ensures AltKinds(Syntax, Statement, 17) == {VariableDeclarationNodeType} + AltKinds(Syntax, Statement, 18)
  {
    assert Syntax.alts(Statement)[17] == StructType(VariableDeclaration);
    assert Syntax.kind(VariableDeclaration) == Some(VariableDeclarationNodeType);
    AltKindsStep(Syntax, Statement, 17, VariableDeclaration, VariableDeclarationNodeType);
  }

  lemma StatementAlt18()
    requires WellFormed(Syntax)
    ensures AltKinds(Syntax, Statement, 18) == {WhileStatementNodeType} + AltKinds(Syntax, Statement, 19)
  {
    assert Syntax.alts(Statement)[18] == StructType(WhileStatement);
    assert Syntax.kind(WhileStatement) == Some(WhileStatementNodeType);
    AltKindsStep(Syntax, Statement, 18, WhileStatement, WhileStatementNodeType);
  }

  lemma StatementAlt19()
    requires WellFormed(Syntax)
    ensures AltKinds(Syntax, Statement, 19) == {WithStatementNodeType} + AltKinds(Syntax, Statement, 20)
  {
    assert Syntax.alts(Statement)[19] == StructType(WithStatement);
    assert Syntax.kind(WithStatement) == Some(WithStatementNodeType);
    AltKindsStep(Syntax, Statement, 19, WithStatement, WithStatementNodeType);
  }

  lemma ExpressionKindsFrom0()
    requires WellFormed(Syntax)
    ensures AltKinds(Syntax, Expression, 0) == {ArrayExpressionNodeType, ArrowFunctionExpressionNodeType, AssignmentExpressionNodeType, AsyncArrowFunctionExpressionNodeType} + AltKinds(Syntax, Expression, 4)
  {
    ExpressionAlt0();
    ExpressionAlt1();
    ExpressionAlt2();
    ExpressionAlt3();
  }

  lemma ExpressionKindsFrom4()
    requires WellFormed(Syntax)
    ensures AltKinds(Syntax, Expression, 4) == {AsyncFunctionExpressionNodeType, AwaitExpressionNodeType, BinaryExpressionNodeType, CallExpressionNodeType} + AltKinds(Syntax, Expression, 8)
  {
    ExpressionAlt4();
    ExpressionAlt5();
    ExpressionAlt6();
    ExpressionAlt7();
  }

  lemma ExpressionKindsFrom8()
    requires WellFormed(Syntax)
    ensures AltKinds(Syntax, Expression, 8) == {ClassExpressionNodeType, ComputedMemberExpressionNodeType, ConditionalExpressionNodeType, IdentifierNodeType} + AltKinds(Syntax, Expression, 12)
  {
    ExpressionAlt8();
    ExpressionAlt9();
    ExpressionAlt10();
    ExpressionAlt11();
  }

  lemma ExpressionKindsFrom12()
    requires WellFormed(Syntax)
    ensures AltKinds(Syntax, Expression, 12) == {FunctionExpressionNodeType, LiteralNodeType, NewExpressionNodeType, ObjectExpressionNodeType} + AltKinds(Syntax, Expression, 16)
  {
    ExpressionAlt12();
    ExpressionAlt13();
    ExpressionAlt14();
    ExpressionAlt15();
  }

  lemma ExpressionKindsFrom16()
    requires WellFormed(Syntax)
    ensures AltKinds(Syntax, Expression, 16) == {RegexLiteralNodeType, SequenceExpressionNodeType, StaticMemberExpressionNodeType, TaggedTemplateExpressionNodeType} + AltKinds(Syntax, Expression, 20)
  {
    ExpressionAlt16();
    ExpressionAlt17();
    ExpressionAlt18();
    ExpressionAlt19();
  }

  lemma ExpressionKindsFrom20()
    requires WellFormed(Syntax)
    ensures AltKinds(Syntax, Expression, 20) == {ThisExpressionNodeType, UnaryExpressionNodeType, UpdateExpressionNodeType, YieldExpressionNodeType}
  {
    ExpressionAlt20();
    ExpressionAlt21();
    ExpressionAlt22();
    ExpressionAlt23();
    assert AltKinds(Syntax, Expression, 24) == {};
  }

  // Table facts, one per alternative, generated from the `JSSyntaxTables` alternatives. Each reads
  // off one entry of the alternatives list; the proof is in the chunk lemmas
  // that chain them, so most of these need no body.

  lemma ExpressionAlt0()
    requires WellFormed(Syntax)
    ensures AltKinds(Syntax, Expression, 0) == {ArrayExpressionNodeType} + AltKinds(Syntax, Expression, 1)
  {
    assert Syntax.alts(Expression)[0] == StructType(ArrayExpression);
    assert Syntax.kind(ArrayExpression) == Some(ArrayExpressionNodeType);
    AltKindsStep(Syntax, Expression, 0, ArrayExpression, ArrayExpressionNodeType);
  }

  lemma ExpressionAlt1()
    requires WellFormed(Syntax)
    ensures AltKinds(Syntax, Expression, 1) == {ArrowFunctionExpressionNodeType} + AltKinds(Syntax, Expression, 2)
  {
    assert Syntax.alts(Expression)[1] == StructType(ArrowFunctionExpression);
    assert Syntax.kind(ArrowFunctionExpression) == Some(ArrowFunctionExpressionNodeType);
    AltKindsStep(Syntax, Expression, 1, ArrowFunctionExpression, ArrowFunctionExpressionNodeType);
  }

  lemma ExpressionAlt2()
    requires WellFormed(Syntax)
    ensures AltKinds(Syntax, Expression, 2) == {AssignmentExpressionNodeType} + AltKinds(Syntax, Expression, 3)
  {
    assert Syntax.alts(Expression)[2] == StructType(AssignmentExpression);
    assert Syntax.kind(AssignmentExpression) == Some(AssignmentExpressionNodeType);
    AltKindsStep(Syntax, Expression, 2, AssignmentExpression, AssignmentExpressionNodeType);
  }

  lemma ExpressionAlt3()
    requires WellFormed(Syntax)
    ensures AltKinds(Syntax, Expression, 3) == {AsyncArrowFunctionExpressionNodeType} + AltKinds(Syntax, Expression, 4)
  {
    assert Syntax.alts(Expression)[3] == StructType(AsyncArrowFunctionExpression);
    assert Syntax.kind(AsyncArrowFunctionExpression) == Some(AsyncArrowFunctionExpressionNodeType);
    AltKindsStep(Syntax, Expression, 3, AsyncArrowFunctionExpression, AsyncArrowFunctionExpressionNodeType);
  }

  lemma ExpressionAlt4()
    requires WellFormed(Syntax)
    ensures AltKinds(Syntax, Expression, 4) == {AsyncFunctionExpressionNodeType} + AltKinds(Syntax, Expression, 5)
  {
    assert Syntax.alts(Expression)[4] == StructType(AsyncFunctionExpression);
    assert Syntax.kind(AsyncFunctionExpression) == Some(AsyncFunctionExpressionNodeType);
    AltKindsStep(Syntax, Expression, 4, AsyncFunctionExpression, AsyncFunctionExpressionNodeType);
  }

  lemma ExpressionAlt5()
    requires WellFormed(Syntax)
    ensures AltKinds(Syntax, Expression, 5) == {AwaitExpressionNodeType} + AltKinds(Syntax, Expression, 6)
  {
    assert Syntax.alts(Expression)[5] == StructType(AwaitExpression);
    assert Syntax.kind(AwaitExpression) == Some(AwaitExpressionNodeType);
    AltKindsStep(Syntax, Expression, 5, AwaitExpression, AwaitExpressionNodeType);
  }

  lemma ExpressionAlt6()
    requires WellFormed(Syntax)
    ensures AltKinds(Syntax, Expression, 6) == {BinaryExpressionNodeType} + AltKinds(Syntax, Expression, 7)
  {
    assert Syntax.alts(Expression)[6] == StructType(BinaryExpression);
    assert Syntax.kind(BinaryExpression) == Some(BinaryExpressionNodeType);
    AltKindsStep(Syntax, Expression, 6, BinaryExpression, BinaryExpressionNodeType);
  }

  lemma ExpressionAlt7()
    requires WellFormed(Syntax)
    ensures AltKinds(Syntax, Expression, 7) == {CallExpressionNodeType} + AltKinds(Syntax, Expression, 8)
  {
    assert Syntax.alts(Expression)[7] == StructType(CallExpression);
    assert Syntax.kind(CallExpression) == Some(CallExpressionNodeType);
    AltKindsStep(Syntax, Expression, 7, CallExpression, CallExpressionNodeType);
  }

  lemma ExpressionAlt8()
    requires WellFormed(Syntax)
    ensures AltKinds(Syntax, Expression, 8) == {ClassExpressionNodeType} + AltKinds(Syntax, Expression, 9)
  {
    assert Syntax.alts(Expression)[8] == StructType(ClassExpression);
    assert Syntax.kind(ClassExpression) == Some(ClassExpressionNodeType);
    AltKindsStep(Syntax, Expression, 8, ClassExpression, ClassExpressionNodeType);
  }

  lemma ExpressionAlt9()
    requires WellFormed(Syntax)
    ensures AltKinds(Syntax, Expression, 9) == {ComputedMemberExpressionNodeType} + AltKinds(Syntax, Expression, 10)
  {
    assert Syntax.alts(Expression)[9] == StructType(ComputedMemberExpression);
    assert Syntax.kind(ComputedMemberExpression) == Some(ComputedMemberExpressionNodeType);
    AltKindsStep(Syntax, Expression, 9, ComputedMemberExpression, ComputedMemberExpressionNodeType);
  }

  lemma ExpressionAlt10()
    requires WellFormed(Syntax)
    ensures AltKinds(Syntax, Expression, 10) == {ConditionalExpressionNodeType} + AltKinds(Syntax, Expression, 11)
  {
    assert Syntax.alts(Expression)[10] == StructType(ConditionalExpression);
    assert Syntax.kind(ConditionalExpression) == Some(ConditionalExpressionNodeType);
    AltKindsStep(Syntax, Expression, 10, ConditionalExpression, ConditionalExpressionNodeType);
  }

  lemma ExpressionAlt11()
    requires WellFormed(Syntax)
    ensures AltKinds(Syntax, Expression, 11) == {IdentifierNodeType} + AltKinds(Syntax, Expression, 12)
  {
    assert Syntax.alts(Expression)[11] == StructType(Identifier);
    assert Syntax.kind(Identifier) == Some(IdentifierNodeType);
    AltKindsStep(Syntax, Expression, 11, Identifier, IdentifierNodeType);
  }

  lemma ExpressionAlt12()
    requires WellFormed(Syntax)
    ensures AltKinds(Syntax, Expression, 12) == {FunctionExpressionNodeType} + AltKinds(Syntax, Expression, 13)
  {
    assert Syntax.alts(Expression)[12] == StructType(FunctionExpression);
    assert Syntax.kind(FunctionExpression) == Some(FunctionExpressionNodeType);
    AltKindsStep(Syntax, Expression, 12, FunctionExpression, FunctionExpressionNodeType);
  }

  lemma ExpressionAlt13()
    requires WellFormed(Syntax)
    ensures AltKinds(Syntax, Expression, 13) == {LiteralNodeType} + AltKinds(Syntax, Expression, 14)
  {
    assert Syntax.alts(Expression)[13] == StructType(Literal);
    assert Syntax.kind(Literal) == Some(LiteralNodeType);
    AltKindsStep(Syntax, Expression, 13, Literal, LiteralNodeType);
  }

  lemma ExpressionAlt14()
    requires WellFormed(Syntax)
    ensures AltKinds(Syntax, Expression, 14) == {NewExpressionNodeType} + AltKinds(Syntax, Expression, 15)
  {
    assert Syntax.alts(Expression)[14] == StructType(NewExpression);
    assert Syntax.kind(NewExpression) == Some(NewExpressionNodeType);
    AltKindsStep(Syntax, Expression, 14, NewExpression, NewExpressionNodeType);
  }

  lemma ExpressionAlt15()
    requires WellFormed(Syntax)
    ensures AltKinds(Syntax, Expression, 15) == {ObjectExpressionNodeType} + AltKinds(Syntax, Expression, 16)
  {
    assert Syntax.alts(Expression)[15] == StructType(ObjectExpression);
    assert Syntax.kind(ObjectExpression) == Some(ObjectExpressionNodeType);
    AltKindsStep(Syntax, Expression, 15, ObjectExpression, ObjectExpressionNodeType);
  }

  lemma ExpressionAlt16()
    requires WellFormed(Syntax)
    ensures AltKinds(Syntax, Expression, 16) == {RegexLiteralNodeType} + AltKinds(Syntax, Expression, 17)
  {
    assert Syntax.alts(Expression)[16] == StructType(RegexLiteral);
    assert Syntax.kind(RegexLiteral) == Some(RegexLiteralNodeType);
    AltKindsStep(Syntax, Expression, 16, RegexLiteral, RegexLiteralNodeType);
  }

  lemma ExpressionAlt17()
    requires WellFormed(Syntax)
    ensures AltKinds(Syntax, Expression, 17) == {SequenceExpressionNodeType} + AltKinds(Syntax, Expression, 18)
  {
    assert Syntax.alts(Expression)[17] == StructType(SequenceExpression);
    assert Syntax.kind(SequenceExpression) == Some(SequenceExpressionNodeType);
    AltKindsStep(Syntax, Expression, 17, SequenceExpression, SequenceExpressionNodeType);
  }

  lemma ExpressionAlt18()
    requires WellFormed(Syntax)
    ensures AltKinds(Syntax, Expression, 18) == {StaticMemberExpressionNodeType} + AltKinds(Syntax, Expression, 19)
  {
    assert Syntax.alts(Expression)[18] == StructType(StaticMemberExpression);
    assert Syntax.kind(StaticMemberExpression) == Some(StaticMemberExpressionNodeType);
    AltKindsStep(Syntax, Expression, 18, StaticMemberExpression, StaticMemberExpressionNodeType);
  }

  lemma ExpressionAlt19()
    requires WellFormed(Syntax)
    ensures AltKinds(Syntax, Expression, 19) == {TaggedTemplateExpressionNodeType} + AltKinds(Syntax, Expression, 20)
  {
    assert Syntax.alts(Expression)[19] == StructType(TaggedTemplateExpression);
    assert Syntax.kind(TaggedTemplateExpression) == Some(TaggedTemplateExpressionNodeType);
    AltKindsStep(Syntax, Expression, 19, TaggedTemplateExpression, TaggedTemplateExpressionNodeType);
  }

  lemma ExpressionAlt20()
    requires WellFormed(Syntax)
    ensures AltKinds(Syntax, Expression, 20) == {ThisExpressionNodeType} + AltKinds(Syntax, Expression, 21)
  {
    assert Syntax.alts(Expression)[20] == StructType(ThisExpression);
    assert Syntax.kind(ThisExpression) == Some(ThisExpressionNodeType);
    AltKindsStep(Syntax, Expression, 20, ThisExpression, ThisExpressionNodeType);
  }

  lemma ExpressionAlt21()
    requires WellFormed(Syntax)
    ensures AltKinds(Syntax, Expression, 21) == {UnaryExpressionNodeType} + AltKinds(Syntax, Expression, 22)
  {
    assert Syntax.alts(Expression)[21] == StructType(UnaryExpression);
    assert Syntax.kind(UnaryExpression) == Some(UnaryExpressionNodeType);
    AltKindsStep(Syntax, Expression, 21, UnaryExpression, UnaryExpressionNodeType);
  }

  lemma ExpressionAlt22()
    requires WellFormed(Syntax)
    ensures AltKinds(Syntax, Expression, 22) == {UpdateExpressionNodeType} + AltKinds(Syntax, Expression, 23)
  {
    assert Syntax.alts(Expression)[22] == StructType(UpdateExpression);
    assert Syntax.kind(UpdateExpression) == Some(UpdateExpressionNodeType);
    AltKindsStep(Syntax, Expression, 22, UpdateExpression, UpdateExpressionNodeType);
  }

  lemma ExpressionAlt23()
    requires WellFormed(Syntax)
    ensures AltKinds(Syntax, Expression, 23) == {YieldExpressionNodeType} + AltKinds(Syntax, Expression, 24)
  {
    assert Syntax.alts(Expression)[23] == StructType(YieldExpression);
    assert Syntax.kind(YieldExpression) == Some(YieldExpressionNodeType);
    AltKindsStep(Syntax, Expression, 23, YieldExpression, YieldExpressionNodeType);
  }
  /** A `Statement` is one of its twenty node structs, whose tag the object
      carries; every such struct is a `Statement`; nothing but an object is. */
  lemma StatementAcceptsExactly(j: Json)
    ensures DecodeAs(UnionType(Statement), j).Ok? <==>
      exists s :: KindOf(s).Some? && KindOf(s).value in StatementKinds && DecodeAs(StructType(s), j).Ok?
    ensures DecodeAs(UnionType(Statement), j).Ok? ==>
      TagOf(j).Ok? && ParseNodeType(TagOf(j).value).Some? && ParseNodeType(TagOf(j).value).value in StatementKinds
  {
    StatementKindsExact();
    StatementNodesOnly(j);
    StructsOnlyTags(j);
    if j.JObject? {
      UnionAccepts(Statement, j);
    }
  }

  /** An `Expression` is one of its twenty-four node structs, whose tag the object
      carries; every such struct is an `Expression`; nothing but an object is. */
  lemma ExpressionAcceptsExactly(j: Json)
    ensures DecodeAs(UnionType(Expression), j).Ok? <==>
      exists s :: KindOf(s).Some? && KindOf(s).value in ExpressionKinds && DecodeAs(StructType(s), j).Ok?
    ensures DecodeAs(UnionType(Expression), j).Ok? ==>
      TagOf(j).Ok? && ParseNodeType(TagOf(j).value).Some? && ParseNodeType(TagOf(j).value).value in ExpressionKinds
  {
    ExpressionKindsExact();
    ExpressionNodesOnly(j);
    StructsOnlyTags(j);
    if j.JObject? {
      UnionAccepts(Expression, j);
    }
  }

  /** A node struct decodes only objects carrying its own tag. */
  lemma StructsOnlyTags(j: Json)
    ensures forall s | KindOf(s).Some? && DecodeAs(StructType(s), j).Ok? ::
      j.JObject? && TagOf(j) == Ok(RawValue(KindOf(s).value)) &&
      ParseNodeType(TagOf(j).value) == Some(KindOf(s).value)
  {
    forall s | KindOf(s).Some? && DecodeAs(StructType(s), j).Ok?
      ensures j.JObject? && TagOf(j) == Ok(RawValue(KindOf(s).value))
      ensures ParseNodeType(TagOf(j).value) == Some(KindOf(s).value)
    {
      ParseRawValue(KindOf(s).value);
    }
  }

  lemma StatementNodesOnly(j: Json)
    ensures DecodeAs(UnionType(Statement), j).Ok? ==> j.JObject?
  {
    SyntaxWellFormed();
    if DecodeAs(UnionType(Statement), j).Ok? {
      assert NodesOnly(Syntax, UnionType(Statement));
      NodesOnlyObjects(Syntax, UnionType(Statement), j);
    }
  }

  lemma ExpressionNodesOnly(j: Json)
    ensures DecodeAs(UnionType(Expression), j).Ok? ==> j.JObject?
  {
    SyntaxWellFormed();
    if DecodeAs(UnionType(Expression), j).Ok? {
      ExpressionIsNodesOnly();
      NodesOnlyObjects(Syntax, UnionType(Expression), j);
    }
  }

  /** `LabeledStatement` is a node struct but no `Statement`: an object tagged
      "LabeledStatement" does not decode as a `Statement`. */
  lemma LabeledStatementIsNoStatement(j: Json)
    requires TagOf(j) == Ok(RawValue(LabeledStatementNodeType))
    ensures DecodeAs(UnionType(Statement), j).Err?
  {
    StatementKindsExact();
    UnionRejects(Statement, LabeledStatementNodeType, j);
  }

  /** `MetaProperty`, `Super` and `TemplateLiteral` are node structs but no
      `Expression`. */
  lemma NoExpressionTags(k: NodeType, j: Json)
    requires k == MetaPropertyNodeType || k == SuperNodeType || k == TemplateLiteralNodeType
    requires TagOf(j) == Ok(RawValue(k))
    ensures DecodeAs(UnionType(Expression), j).Err?
  {
    ExpressionKindsExact();
    UnionRejects(Expression, k, j);
  }

  /** A call's callee is an `Expression` or `Import`, and `Import` is no
      `Expression`: an `Import` object decodes as a callee but not as an
      expression. */
  lemma CalleeAdmitsImport(j: Json)
    requires DecodeAs(StructType(Import), j).Ok?
    ensures DecodeAs(UnionType(Callee), j).Ok?
    ensures DecodeAs(UnionType(Expression), j).Err?
  {
    SyntaxWellFormed();
    assert AltsOf(Callee)[1] == StructType(Import);
    DecodeAltsAny(Syntax, Callee, 0, j, [], 1);
    ImportIsNoExpression(j);
  }

  lemma ImportIsNoExpression(j: Json)
    requires WellFormed(Syntax) && Decode(Syntax, StructType(Import), j).Ok?
    ensures Decode(Syntax, UnionType(Expression), j).Err?
  {
    ImportTag(j);
    ExpressionKindsExact();
    UnionRejects(Expression, ImportNodeType, j);
  }

  lemma ImportTag(j: Json)
    requires WellFormed(Syntax) && Decode(Syntax, StructType(Import), j).Ok?
    ensures TagOf(j) == Ok(RawValue(ImportNodeType))
  {
  }

  // ---------------------------------------------------------------------------
  // Null versus absent
  // ---------------------------------------------------------------------------

  /** The `Nullable` fields that may hold JSON null, with their keys:
      `VariableDeclarator.init`, `IfStatement.alternate`, `ForStatement.init`,
      `.test`, `.update` and `ReturnStatement.argument`. */
  const NullableFields: set<(StructName, nat, string)> := {
      (VariableDeclarator, 1, "init"), (IfStatement, 2, "alternate"),
      (ForStatement, 0, "init"), (ForStatement, 1, "test"), (ForStatement, 2, "update"),
      (ReturnStatement, 0, "argument")
    }

  lemma NullableFieldListed(s: StructName, a: nat, key: string)
    requires (s, a, key) in NullableFields
    ensures a < |FieldsOf(s)| && FieldsOf(s)[a].ty.NullableType? && KeyName(FieldsOf(s)[a].key) == key
  {
    if (s, a, key) == (VariableDeclarator, 1, "init") {
      VariableDeclaratorInitNullable();
    } else if (s, a, key) == (IfStatement, 2, "alternate") {
      IfStatementAlternateNullable();
    } else if (s, a, key) == (ForStatement, 0, "init") {
      ForStatementInitNullable();
    } else if (s, a, key) == (ForStatement, 1, "test") {
      ForStatementTestNullable();
    } else if (s, a, key) == (ForStatement, 2, "update") {
      ForStatementUpdateNullable();
    } else {
      ReturnStatementArgumentNullable();
    }
  }

  lemma VariableDeclaratorInitNullable()
    ensures 1 < |FieldsOf(VariableDeclarator)| && FieldsOf(VariableDeclarator)[1].ty.NullableType? && KeyName(FieldsOf(VariableDeclarator)[1].key) == "init"
  {
  }

  lemma IfStatementAlternateNullable()
    ensures 2 < |FieldsOf(IfStatement)| && FieldsOf(IfStatement)[2].ty.NullableType? && KeyName(FieldsOf(IfStatement)[2].key) == "alternate"
  {
  }

  lemma ForStatementInitNullable()
    ensures 0 < |FieldsOf(ForStatement)| && FieldsOf(ForStatement)[0].ty.NullableType? && KeyName(FieldsOf(ForStatement)[0].key) == "init"
  {
  }

  lemma ForStatementTestNullable()
    ensures 1 < |FieldsOf(ForStatement)| && FieldsOf(ForStatement)[1].ty.NullableType? && KeyName(FieldsOf(ForStatement)[1].key) == "test"
  {
  }

  lemma ForStatementUpdateNullable()
    ensures 2 < |FieldsOf(ForStatement)| && FieldsOf(ForStatement)[2].ty.NullableType? && KeyName(FieldsOf(ForStatement)[2].key) == "update"
  {
  }

  lemma ReturnStatementArgumentNullable()
    ensures 0 < |FieldsOf(ReturnStatement)| && FieldsOf(ReturnStatement)[0].ty.NullableType? && KeyName(FieldsOf(ReturnStatement)[0].key) == "argument"
  {
  }

  /** Each of these fields must be present; it decodes to null exactly when the
      JSON holds null there, and encoding writes that null back under the key
      instead of leaving the key out. */
  lemma NullableFieldKeptAsNull(s: StructName, a: nat, key: string, j: Json, v: Node)
    requires (s, a, key) in NullableFields
    requires DecodeAs(StructType(s), j) == Ok(v)
    ensures j.JObject? && key in j.fields && v.VStruct? && a < |v.fields|
    ensures j.fields[key] == JNull <==> v.fields[a] == VNull
    ensures EncodeNode(v).JObject? && key in EncodeNode(v).fields
    ensures EncodeNode(v).fields[key] == JNull <==> v.fields[a] == VNull
  {
    SyntaxWellFormed();
    SyntaxUnambiguous();
    NullableFieldListed(s, a, key);
    NullableFieldKept(Syntax, s, a, j, v);
  }

  /** An object without one of these keys does not decode: null is not the
      same as absent. */
  lemma NullableFieldRequired(s: StructName, a: nat, key: string, j: Json)
    requires (s, a, key) in NullableFields
    requires j.JObject? && key !in j.fields
    ensures DecodeAs(StructType(s), j).Err?
  {
    SyntaxWellFormed();
    NullableFieldListed(s, a, key);
    MissingFieldFails(Syntax, s, j, a);
  }

  lemma ExpressionIsNodesOnly()
    requires WellFormed(Syntax)
    ensures NodesOnly(Syntax, UnionType(Expression))
  {
  }

  /** A hole in an array literal: JSON null is the `ExplicitNull` case of
      `ArrayExpressionElement`, and that case encodes as null. */
  lemma ArrayExpressionHole()
    ensures DecodeAs(UnionType(ArrayExpressionElement), JNull) == Ok(VAlt(2, VNull))
    ensures EncodeNode(VAlt(2, VNull)) == JNull
  {
    SyntaxWellFormed();
    ExpressionIsNodesOnly();
    ExplicitNullHole(Syntax, ArrayExpressionElement, 2);
  }

  /** A hole in an array pattern: JSON null is the `ExplicitNull` case of
      `ArrayPatternElement`, and that case encodes as null. */
  lemma ArrayPatternHole()
    ensures DecodeAs(UnionType(ArrayPatternElement), JNull) == Ok(VAlt(4, VNull))
    ensures EncodeNode(VAlt(4, VNull)) == JNull
  {
    SyntaxWellFormed();
    assert NodesOnly(Syntax, UnionType(BindingPattern));
    ExplicitNullHole(Syntax, ArrayPatternElement, 4);
  }

  /** A method definition without a body holds the `ExplicitNull` case of its
      value. */
  lemma MethodValueNull()
    ensures DecodeAs(UnionType(MethodValue), JNull) == Ok(VAlt(2, VNull))
    ensures EncodeNode(VAlt(2, VNull)) == JNull
  {
    SyntaxWellFormed();
    ExplicitNullHole(Syntax, MethodValue, 2);
  }

  // ---------------------------------------------------------------------------
  // First match
  // ---------------------------------------------------------------------------

  lemma TagRejects(s: StructName, k: NodeType, j: Json)
    requires WellFormed(Syntax) && KindOf(s).Some? && KindOf(s) != Some(k) && TagOf(j) == Ok(RawValue(k))
    ensures Decode(Syntax, StructType(s), j).Err?
  {
    RawValueInjective(KindOf(s).value, k);
  }

  /** `ExportDeclaration` accepts the three export node types. */
  lemma ExportDeclarationKindsExact()
    ensures UnionKinds(ExportDeclaration) ==
      {ExportAllDeclarationNodeType, ExportDefaultDeclarationNodeType, ExportNamedDeclarationNodeType}
  {
    SyntaxWellFormed();
    ExportDeclarationAlt0();
    ExportDeclarationAlt1();
    ExportDeclarationAlt2();
    assert AltKinds(Syntax, ExportDeclaration, 3) == {};
  }

  // Table facts, one per alternative, generated from the `JSSyntaxTables` alternatives. Each reads
  // off one entry of the alternatives list; the proof is in the chunk lemmas
  // that chain them, so most of these need no body.

  lemma ExportDeclarationAlt0()
    requires WellFormed(Syntax)
    ensures AltKinds(Syntax, ExportDeclaration, 0) == {ExportAllDeclarationNodeType} + AltKinds(Syntax, ExportDeclaration, 1)
  {
    assert Syntax.alts(ExportDeclaration)[0] == StructType(ExportAllDeclaration);
    assert Syntax.kind(ExportAllDeclaration) == Some(ExportAllDeclarationNodeType);
    AltKindsStep(Syntax, ExportDeclaration, 0, ExportAllDeclaration, ExportAllDeclarationNodeType);
  }

  lemma ExportDeclarationAlt1()
    requires WellFormed(Syntax)
    ensures AltKinds(Syntax, ExportDeclaration, 1) == {ExportDefaultDeclarationNodeType} + AltKinds(Syntax, ExportDeclaration, 2)
  {
    assert Syntax.alts(ExportDeclaration)[1] == StructType(ExportDefaultDeclaration);
    assert Syntax.kind(ExportDefaultDeclaration) == Some(ExportDefaultDeclarationNodeType);
    AltKindsStep(Syntax, ExportDeclaration, 1, ExportDefaultDeclaration, ExportDefaultDeclarationNodeType);
  }

  lemma ExportDeclarationAlt2()
    requires WellFormed(Syntax)
    ensures AltKinds(Syntax, ExportDeclaration, 2) == {ExportNamedDeclarationNodeType} + AltKinds(Syntax, ExportDeclaration, 3)
  {
    assert Syntax.alts(ExportDeclaration)[2] == StructType(ExportNamedDeclaration);
    assert Syntax.kind(ExportNamedDeclaration) == Some(ExportNamedDeclarationNodeType);
    AltKindsStep(Syntax, ExportDeclaration, 2, ExportNamedDeclaration, ExportNamedDeclarationNodeType);
  }

  lemma DeclarationAlt0Rejects(j: Json)
    requires WellFormed(Syntax) && TagOf(j) == Ok(RawValue(FunctionDeclarationNodeType))
    ensures Decode(Syntax, Syntax.alts(Declaration)[0], j).Err?
  {
    assert Syntax.alts(Declaration)[0] == StructType(AsyncFunctionDeclaration);
    TagRejects(AsyncFunctionDeclaration, FunctionDeclarationNodeType, j);
  }

  lemma DeclarationAlt1Rejects(j: Json)
    requires WellFormed(Syntax) && TagOf(j) == Ok(RawValue(FunctionDeclarationNodeType))
    ensures Decode(Syntax, Syntax.alts(Declaration)[1], j).Err?
  {
    assert Syntax.alts(Declaration)[1] == StructType(ClassDeclaration);
    TagRejects(ClassDeclaration, FunctionDeclarationNodeType, j);
  }

  lemma DeclarationAlt2Rejects(j: Json)
    requires WellFormed(Syntax) && TagOf(j) == Ok(RawValue(FunctionDeclarationNodeType))
    ensures Decode(Syntax, Syntax.alts(Declaration)[2], j).Err?
  {
    assert Syntax.alts(Declaration)[2] == UnionType(ExportDeclaration);
    ExportDeclarationKindsExact();
    UnionRejects(ExportDeclaration, FunctionDeclarationNodeType, j);
  }

  /** `Declaration` holds a function declaration as its fourth alternative. */
  lemma DeclarationHoldsFunction(j: Json, w: Node)
    requires WellFormed(Syntax) && TagOf(j) == Ok(RawValue(FunctionDeclarationNodeType))
    requires Decode(Syntax, Syntax.alts(Declaration)[3], j) == Ok(w)
    ensures Decode(Syntax, UnionType(Declaration), j) == Ok(VAlt(3, w))
  {
    DeclarationAlt0Rejects(j);
    DeclarationAlt1Rejects(j);
    DeclarationAlt2Rejects(j);
    DecodeAltsFrom(Syntax, Declaration, 0, j, [], 3, w);
  }

  lemma FunctionDeclarationTag(j: Json, w: Node)
    requires WellFormed(Syntax) && Decode(Syntax, StructType(FunctionDeclaration), j) == Ok(w)
    ensures TagOf(j) == Ok(RawValue(FunctionDeclarationNodeType))
    ensures Decode(Syntax, Syntax.alts(Declaration)[3], j) == Ok(w)
  {
    assert Syntax.alts(Declaration)[3] == StructType(FunctionDeclaration);
  }

  lemma StatementListItemTakesDeclaration(j: Json, v: Node)
    requires WellFormed(Syntax) && Decode(Syntax, UnionType(Declaration), j) == Ok(v)
    ensures Decode(Syntax, UnionType(StatementListItem), j) == Ok(VAlt(0, v))
  {
    assert Syntax.alts(StatementListItem)[0] == UnionType(Declaration);
    DecodeAltsFrom(Syntax, StatementListItem, 0, j, [], 0, v);
  }

  /** A function declaration in a statement list is held as a `Declaration`, the
      first alternative of `StatementListItem`, as that union's fourth case. */
  lemma FunctionDeclarationIsDeclaration(j: Json, w: Node)
    requires DecodeAs(StructType(FunctionDeclaration), j) == Ok(w)
    ensures DecodeAs(UnionType(StatementListItem), j) == Ok(VAlt(0, VAlt(3, w)))
  {
    SyntaxWellFormed();
    FunctionDeclarationTag(j, w);
    DeclarationHoldsFunction(j, w);
    StatementListItemTakesDeclaration(j, VAlt(3, w));
  }

  /** `Statement` accepts a function declaration too, so the two unions overlap. */
  lemma FunctionDeclarationIsStatement(j: Json)
    requires DecodeAs(StructType(FunctionDeclaration), j).Ok?
    ensures DecodeAs(UnionType(Statement), j).Ok?
  {
    SyntaxWellFormed();
    assert Syntax.alts(Statement)[11] == StructType(FunctionDeclaration);
    DecodeAltsAny(Syntax, Statement, 0, j, [], 11);
  }
}
