/** The `JSSyntax` node structs and unions, as the tables the generic codec reads.

    Each struct lists its stored properties in declaration order and each union
    its `OneOf` alternatives in order; a nested `OneOf` (Swift's arity
    workaround) is flattened into one list, which a first-success decoder reads
    the same way. */
module JSSyntax {
  import opened Json
  import opened Codable
  import opened NodeTypes
  import opened FieldKeys

  /** The node structs, and the two untagged value structs they contain. */
  datatype StructName =
    | Script
    | Module
    | ArrayExpression
    | ArrayPattern
    | ArrowFunctionExpression
    | AssignmentExpression
    | AssignmentPattern
    | AsyncArrowFunctionExpression
    | AsyncFunctionDeclaration
    | AsyncFunctionExpression
    | AwaitExpression
    | BinaryExpression
    | BlockStatement
    | BreakStatement
    | CallExpression
    | CatchClause
    | ClassBody
    | ClassDeclaration
    | ClassExpression
    | ComputedMemberExpression
    | ConditionalExpression
    | ContinueStatement
    | DebuggerStatement
    | Directive
    | DoWhileStatement
    | EmptyStatement
    | ExportAllDeclaration
    | ExportDefaultDeclaration
    | ExportNamedDeclaration
    | ExportSpecifier
    | ExpressionStatement
    | ForInStatement
    | ForOfStatement
    | ForStatement
    | FunctionDeclaration
    | FunctionExpression
    | Identifier
    | IfStatement
    | Import
    | ImportDeclaration
    | ImportDefaultSpecifier
    | ImportNamespaceSpecifier
    | ImportSpecifier
    | LabeledStatement
    | Literal
    | MetaProperty
    | MethodDefinition
    | NewExpression
    | ObjectExpression
    | ObjectPattern
    | Property
    | RegexLiteral
    | RestElement
    | ReturnStatement
    | SequenceExpression
    | SpreadElement
    | StaticMemberExpression
    | Super
    | SwitchCase
    | SwitchStatement
    | TaggedTemplateExpression
    | TemplateElement
    | TemplateLiteral
    | ThisExpression
    | ThrowStatement
    | TryStatement
    | UnaryExpression
    | UpdateExpression
    | VariableDeclaration
    | VariableDeclarator
    | WhileStatement
    | WithStatement
    | YieldExpression
    | TemplateElementValue
    | Regex

  /** The unions, including the ones written inline at a field's declaration
      (`ArrowBody`, `Callee`, `BindingTarget`, `MethodValue`, `LiteralValue`). */
  datatype UnionName =
    | StatementListItem
    | ModuleItem
    | ArgumentListElement
    | ArrayExpressionElement
    | ArrayPatternElement
    | BindingPattern
    | Declaration
    | ExportableDefaultDeclaration
    | ExportableNamedDeclaration
    | ExportDeclaration
    | Expression
    | FunctionParameter
    | ImportDeclarationSpecifier
    | ObjectExpressionProperty
    | ObjectPatternProperty
    | Statement
    | PropertyKey
    | PropertyValue
    | ArrowBody
    | Callee
    | BindingTarget
    | MethodValue
    | LiteralValue

  type SyntaxType = Ty<StructName, UnionName>
  type Node = Value<StructName>

  /** The node-type enum of each struct; the value structs carry none. */
  function KindOf(s: StructName): Option<NodeType> {
    match s
    case Script => Some(ProgramNodeType)
    case Module => Some(ProgramNodeType)
    case ArrayExpression => Some(ArrayExpressionNodeType)
    case ArrayPattern => Some(ArrayPatternNodeType)
    case ArrowFunctionExpression => Some(ArrowFunctionExpressionNodeType)
    case AssignmentExpression => Some(AssignmentExpressionNodeType)
    case AssignmentPattern => Some(AssignmentPatternNodeType)
    case AsyncArrowFunctionExpression => Some(AsyncArrowFunctionExpressionNodeType)
    case AsyncFunctionDeclaration => Some(AsyncFunctionDeclarationNodeType)
    case AsyncFunctionExpression => Some(AsyncFunctionExpressionNodeType)
    case AwaitExpression => Some(AwaitExpressionNodeType)
    case BinaryExpression => Some(BinaryExpressionNodeType)
    case BlockStatement => Some(BlockStatementNodeType)
    case BreakStatement => Some(BreakStatementNodeType)
    case CallExpression => Some(CallExpressionNodeType)
    case CatchClause => Some(CatchClauseNodeType)
    case ClassBody => Some(ClassBodyNodeType)
    case ClassDeclaration => Some(ClassDeclarationNodeType)
    case ClassExpression => Some(ClassExpressionNodeType)
    case ComputedMemberExpression => Some(ComputedMemberExpressionNodeType)
    case ConditionalExpression => Some(ConditionalExpressionNodeType)
    case ContinueStatement => Some(ContinueStatementNodeType)
    case DebuggerStatement => Some(DebuggerStatementNodeType)
    case Directive => Some(DirectiveNodeType)
    case DoWhileStatement => Some(DoWhileStatementNodeType)
    case EmptyStatement => Some(EmptyStatementNodeType)
    case ExportAllDeclaration => Some(ExportAllDeclarationNodeType)
    case ExportDefaultDeclaration => Some(ExportDefaultDeclarationNodeType)
    case ExportNamedDeclaration => Some(ExportNamedDeclarationNodeType)
    case ExportSpecifier => Some(ExportSpecifierNodeType)
    case ExpressionStatement => Some(ExpressionStatementNodeType)
    case ForInStatement => Some(ForInStatementNodeType)
    case ForOfStatement => Some(ForOfStatementNodeType)
    case ForStatement => Some(ForStatementNodeType)
    case FunctionDeclaration => Some(FunctionDeclarationNodeType)
    case FunctionExpression => Some(FunctionExpressionNodeType)
    case Identifier => Some(IdentifierNodeType)
    case IfStatement => Some(IfStatementNodeType)
    case Import => Some(ImportNodeType)
    case ImportDeclaration => Some(ImportDeclarationNodeType)
    case ImportDefaultSpecifier => Some(ImportDefaultSpecifierNodeType)
    case ImportNamespaceSpecifier => Some(ImportNamespaceSpecifierNodeType)
    case ImportSpecifier => Some(ImportSpecifierNodeType)
    case LabeledStatement => Some(LabeledStatementNodeType)
    case Literal => Some(LiteralNodeType)
    case MetaProperty => Some(MetaPropertyNodeType)
    case MethodDefinition => Some(MethodDefinitionNodeType)
    case NewExpression => Some(NewExpressionNodeType)
    case ObjectExpression => Some(ObjectExpressionNodeType)
    case ObjectPattern => Some(ObjectPatternNodeType)
    case Property => Some(PropertyNodeType)
    case RegexLiteral => Some(RegexLiteralNodeType)
    case RestElement => Some(RestElementNodeType)
    case ReturnStatement => Some(ReturnStatementNodeType)
    case SequenceExpression => Some(SequenceExpressionNodeType)
    case SpreadElement => Some(SpreadElementNodeType)
    case StaticMemberExpression => Some(StaticMemberExpressionNodeType)
    case Super => Some(SuperNodeType)
    case SwitchCase => Some(SwitchCaseNodeType)
    case SwitchStatement => Some(SwitchStatementNodeType)
    case TaggedTemplateExpression => Some(TaggedTemplateExpressionNodeType)
    case TemplateElement => Some(TemplateElementValueNodeType)
    case TemplateLiteral => Some(TemplateLiteralNodeType)
    case ThisExpression => Some(ThisExpressionNodeType)
    case ThrowStatement => Some(ThrowStatementNodeType)
    case TryStatement => Some(TryStatementNodeType)
    case UnaryExpression => Some(UnaryExpressionNodeType)
    case UpdateExpression => Some(UpdateExpressionNodeType)
    case VariableDeclaration => Some(VariableDeclarationNodeType)
    case VariableDeclarator => Some(VariableDeclaratorNodeType)
    case WhileStatement => Some(WhileStatementNodeType)
    case WithStatement => Some(WithStatementNodeType)
    case YieldExpression => Some(YieldExpressionNodeType)
    case _ => None
  }

  /** The struct that owns each node type (`Script` for the shared `ProgramNodeType`). */
  function StructOfKind(k: NodeType): StructName {
    match k
    case ProgramNodeType => Script
    case ArrayExpressionNodeType => ArrayExpression
    case ArrayPatternNodeType => ArrayPattern
    case ArrowFunctionExpressionNodeType => ArrowFunctionExpression
    case AssignmentExpressionNodeType => AssignmentExpression
    case AssignmentPatternNodeType => AssignmentPattern
    case AsyncArrowFunctionExpressionNodeType => AsyncArrowFunctionExpression
    case AsyncFunctionDeclarationNodeType => AsyncFunctionDeclaration
    case AsyncFunctionExpressionNodeType => AsyncFunctionExpression
    case AwaitExpressionNodeType => AwaitExpression
    case BinaryExpressionNodeType => BinaryExpression
    case BlockStatementNodeType => BlockStatement
    case BreakStatementNodeType => BreakStatement
    case CallExpressionNodeType => CallExpression
    case CatchClauseNodeType => CatchClause
    case ClassBodyNodeType => ClassBody
    case ClassDeclarationNodeType => ClassDeclaration
    case ClassExpressionNodeType => ClassExpression
    case ComputedMemberExpressionNodeType => ComputedMemberExpression
    case ConditionalExpressionNodeType => ConditionalExpression
    case ContinueStatementNodeType => ContinueStatement
    case DebuggerStatementNodeType => DebuggerStatement
    case DirectiveNodeType => Directive
    case DoWhileStatementNodeType => DoWhileStatement
    case EmptyStatementNodeType => EmptyStatement
    case ExportAllDeclarationNodeType => ExportAllDeclaration
    case ExportDefaultDeclarationNodeType => ExportDefaultDeclaration
    case ExportNamedDeclarationNodeType => ExportNamedDeclaration
    case ExportSpecifierNodeType => ExportSpecifier
    case ExpressionStatementNodeType => ExpressionStatement
    case ForInStatementNodeType => ForInStatement
    case ForOfStatementNodeType => ForOfStatement
    case ForStatementNodeType => ForStatement
    case FunctionDeclarationNodeType => FunctionDeclaration
    case FunctionExpressionNodeType => FunctionExpression
    case IdentifierNodeType => Identifier
    case IfStatementNodeType => IfStatement
    case ImportNodeType => Import
    case ImportDeclarationNodeType => ImportDeclaration
    case ImportDefaultSpecifierNodeType => ImportDefaultSpecifier
    case ImportNamespaceSpecifierNodeType => ImportNamespaceSpecifier
    case ImportSpecifierNodeType => ImportSpecifier
    case LabeledStatementNodeType => LabeledStatement
    case LiteralNodeType => Literal
    case MetaPropertyNodeType => MetaProperty
    case MethodDefinitionNodeType => MethodDefinition
    case NewExpressionNodeType => NewExpression
    case ObjectExpressionNodeType => ObjectExpression
    case ObjectPatternNodeType => ObjectPattern
    case PropertyNodeType => Property
    case RegexLiteralNodeType => RegexLiteral
    case RestElementNodeType => RestElement
    case ReturnStatementNodeType => ReturnStatement
    case SequenceExpressionNodeType => SequenceExpression
    case SpreadElementNodeType => SpreadElement
    case StaticMemberExpressionNodeType => StaticMemberExpression
    case SuperNodeType => Super
    case SwitchCaseNodeType => SwitchCase
    case SwitchStatementNodeType => SwitchStatement
    case TaggedTemplateExpressionNodeType => TaggedTemplateExpression
    case TemplateElementValueNodeType => TemplateElement
    case TemplateLiteralNodeType => TemplateLiteral
    case ThisExpressionNodeType => ThisExpression
    case ThrowStatementNodeType => ThrowStatement
    case TryStatementNodeType => TryStatement
    case UnaryExpressionNodeType => UnaryExpression
    case UpdateExpressionNodeType => UpdateExpression
    case VariableDeclarationNodeType => VariableDeclaration
    case VariableDeclaratorNodeType => VariableDeclarator
    case WhileStatementNodeType => WhileStatement
    case WithStatementNodeType => WithStatement
    case YieldExpressionNodeType => YieldExpression
  }

  /** The stored properties of each struct, in declaration order. */
  function FieldsOf(s: StructName): seq<Field<StructName, UnionName, FieldKey>> {
    match s
    case Script => [Field(BodyField, ArrayType(UnionType(StatementListItem))), Field(SourceTypeField, StringType)]
    case Module => [Field(BodyField, ArrayType(UnionType(ModuleItem))), Field(SourceTypeField, StringType)]
    case ArrayExpression => [Field(ElementsField, ArrayType(UnionType(ArrayExpressionElement)))]
    case ArrayPattern => [Field(ElementsField, ArrayType(UnionType(ArrayPatternElement)))]
    case ArrowFunctionExpression => [Field(IdField, NullableType(StructType(Identifier))), Field(ParamsField, ArrayType(UnionType(FunctionParameter))), Field(BodyField, UnionType(ArrowBody)), Field(GeneratorField, BoolType), Field(ExpressionField, BoolType), Field(AsyncField, BoolType)]
    case AssignmentExpression => [Field(OperatorField, StringType), Field(LeftField, UnionType(Expression)), Field(RightField, UnionType(Expression))]
    case AssignmentPattern => [Field(LeftField, UnionType(BindingTarget)), Field(RightField, UnionType(Expression))]
    case AsyncArrowFunctionExpression => [Field(IdField, NullableType(StructType(Identifier))), Field(ParamsField, ArrayType(UnionType(FunctionParameter))), Field(BodyField, UnionType(ArrowBody)), Field(GeneratorField, BoolType), Field(ExpressionField, BoolType), Field(AsyncField, BoolType)]
    case AsyncFunctionDeclaration => [Field(IdField, NullableType(StructType(Identifier))), Field(ParamsField, ArrayType(UnionType(FunctionParameter))), Field(BodyField, StructType(BlockStatement)), Field(GeneratorField, BoolType), Field(ExpressionField, BoolType), Field(AsyncField, BoolType)]
    case AsyncFunctionExpression => [Field(IdField, NullableType(StructType(Identifier))), Field(ParamsField, ArrayType(UnionType(FunctionParameter))), Field(BodyField, StructType(BlockStatement)), Field(GeneratorField, BoolType), Field(ExpressionField, BoolType), Field(AsyncField, BoolType)]
    case AwaitExpression => [Field(ArgumentField, UnionType(Expression))]
    case BinaryExpression => [Field(OperatorField, StringType), Field(LeftField, UnionType(Expression)), Field(RightField, UnionType(Expression))]
    case BlockStatement => [Field(BodyField, ArrayType(UnionType(Statement)))]
    case BreakStatement => [Field(LabelField, NullableType(StructType(Identifier)))]
    case CallExpression => [Field(CalleeField, UnionType(Callee)), Field(ArgumentsField, ArrayType(UnionType(ArgumentListElement)))]
    case CatchClause => [Field(ParamField, UnionType(BindingTarget)), Field(BodyField, StructType(BlockStatement))]
    case ClassBody => [Field(BodyField, ArrayType(StructType(Property)))]
    case ClassDeclaration => [Field(IdField, NullableType(StructType(Identifier))), Field(SuperClassField, NullableType(StructType(Identifier))), Field(BodyField, StructType(ClassBody))]
    case ClassExpression => [Field(IdField, NullableType(StructType(Identifier))), Field(SuperClassField, NullableType(StructType(Identifier))), Field(BodyField, StructType(ClassBody))]
    case ComputedMemberExpression => [Field(ComputedField, BoolType), Field(ObjectField, UnionType(Expression)), Field(PropertyField, UnionType(Expression))]
    case ConditionalExpression => [Field(TestField, UnionType(Expression)), Field(ConsequentField, UnionType(Expression)), Field(AlternateField, UnionType(Expression))]
    case ContinueStatement => [Field(LabelField, NullableType(StructType(Identifier)))]
    case DebuggerStatement => []
    case Directive => [Field(ExpressionField, UnionType(Expression)), Field(DirectiveField, StringType)]
    case DoWhileStatement => [Field(BodyField, UnionType(Statement)), Field(TestField, UnionType(Expression))]
    case EmptyStatement => []
    case ExportAllDeclaration => [Field(SourceField, StructType(Literal))]
    case ExportDefaultDeclaration => [Field(DeclarationField, UnionType(ExportableDefaultDeclaration))]
    case ExportNamedDeclaration => [Field(DeclarationField, NullableType(UnionType(ExportableNamedDeclaration))), Field(SpecifiersField, ArrayType(StructType(ExportSpecifier))), Field(SourceField, NullableType(StructType(Literal)))]
    case ExportSpecifier => [Field(ExportedField, StructType(Identifier)), Field(LocalField, StructType(Identifier))]
    case ExpressionStatement => [Field(ExpressionField, UnionType(Expression))]
    case ForInStatement => [Field(LeftField, UnionType(Expression)), Field(RightField, UnionType(Expression)), Field(BodyField, UnionType(Statement)), Field(EachField, BoolType)]
    case ForOfStatement => [Field(LeftField, UnionType(Expression)), Field(RightField, UnionType(Expression)), Field(BodyField, UnionType(Statement))]
    case ForStatement => [Field(InitField, NullableType(UnionType(Expression))), Field(TestField, NullableType(UnionType(Expression))), Field(UpdateField, NullableType(UnionType(Expression))), Field(BodyField, UnionType(Statement))]
    case FunctionDeclaration => [Field(IdField, NullableType(StructType(Identifier))), Field(ParamsField, ArrayType(UnionType(FunctionParameter))), Field(BodyField, StructType(BlockStatement)), Field(GeneratorField, BoolType), Field(ExpressionField, BoolType), Field(AsyncField, BoolType)]
    case FunctionExpression => [Field(IdField, NullableType(StructType(Identifier))), Field(ParamsField, ArrayType(UnionType(FunctionParameter))), Field(BodyField, StructType(BlockStatement)), Field(GeneratorField, BoolType), Field(ExpressionField, BoolType), Field(AsyncField, BoolType)]
    case Identifier => [Field(NameField, StringType)]
    case IfStatement => [Field(TestField, UnionType(Expression)), Field(ConsequentField, UnionType(Statement)), Field(AlternateField, NullableType(UnionType(Statement)))]
    case Import => []
    case ImportDeclaration => [Field(SpecifiersField, ArrayType(UnionType(ImportDeclarationSpecifier))), Field(SourceField, StructType(Literal))]
    case ImportDefaultSpecifier => [Field(LocalField, StructType(Identifier))]
    case ImportNamespaceSpecifier => [Field(LocalField, StructType(Identifier))]
    case ImportSpecifier => [Field(LocalField, StructType(Identifier)), Field(ImportedField, StructType(Identifier))]
    case LabeledStatement => [Field(LabelField, StructType(Identifier)), Field(BodyField, UnionType(Statement))]
    case Literal => [Field(ValueField, UnionType(LiteralValue)), Field(RawField, StringType)]
    case MetaProperty => [Field(MetaField, StructType(Identifier)), Field(PropertyField, StructType(Identifier))]
    case MethodDefinition => [Field(KeyField, NullableType(UnionType(Expression))), Field(ComputedField, BoolType), Field(ValueField, UnionType(MethodValue)), Field(KindField, StringType), Field(StaticField, BoolType)]
    case NewExpression => [Field(CalleeField, UnionType(Expression)), Field(ArgumentsField, ArrayType(UnionType(ArgumentListElement)))]
    case ObjectExpression => [Field(PropertiesField, ArrayType(UnionType(ObjectExpressionProperty)))]
    case ObjectPattern => [Field(PropertiesField, ArrayType(UnionType(ObjectPatternProperty)))]
    case Property => [Field(KeyField, UnionType(PropertyKey)), Field(ComputedField, BoolType), Field(ValueField, NullableType(UnionType(PropertyValue))), Field(KindField, StringType), Field(MethodField, BoolType), Field(ShorthandField, BoolType)]
    case RegexLiteral => [Field(ValueField, BricType), Field(RawField, StringType), Field(RegexField, StructType(Regex))]
    case RestElement => [Field(ArgumentField, UnionType(BindingTarget))]
    case ReturnStatement => [Field(ArgumentField, NullableType(UnionType(Expression)))]
    case SequenceExpression => [Field(ExpressionsField, ArrayType(UnionType(Expression)))]
    case SpreadElement => [Field(ArgumentField, UnionType(Expression))]
    case StaticMemberExpression => [Field(ComputedField, BoolType), Field(ObjectField, UnionType(Expression)), Field(PropertyField, UnionType(Expression))]
    case Super => []
    case SwitchCase => [Field(TestField, NullableType(UnionType(Expression))), Field(ConsequentField, ArrayType(UnionType(Statement)))]
    case SwitchStatement => [Field(DiscriminantField, UnionType(Expression)), Field(CasesField, ArrayType(StructType(SwitchCase)))]
    case TaggedTemplateExpression => [Field(TagField, UnionType(Expression)), Field(QuasiField, StructType(TemplateLiteral))]
    case TemplateElement => [Field(ValueField, StructType(TemplateElementValue)), Field(TailField, BoolType)]
    case TemplateLiteral => [Field(QuasisField, ArrayType(StructType(TemplateElement))), Field(ExpressionsField, ArrayType(UnionType(Expression)))]
    case ThisExpression => []
    case ThrowStatement => [Field(ArgumentField, UnionType(Expression))]
    case TryStatement => [Field(BlockField, StructType(BlockStatement)), Field(HandlerField, NullableType(StructType(CatchClause))), Field(FinalizerField, NullableType(StructType(BlockStatement)))]
    case UnaryExpression => [Field(OperatorField, StringType), Field(ArgumentField, UnionType(Expression)), Field(PrefixField, BoolType)]
    case UpdateExpression => [Field(OperatorField, StringType), Field(ArgumentField, UnionType(Expression)), Field(PrefixField, BoolType)]
    case VariableDeclaration => [Field(DeclarationsField, ArrayType(StructType(VariableDeclarator))), Field(KindField, StringType)]
    case VariableDeclarator => [Field(IdField, UnionType(BindingTarget)), Field(InitField, NullableType(UnionType(Expression)))]
    case WhileStatement => [Field(TestField, UnionType(Expression)), Field(BodyField, UnionType(Statement))]
    case WithStatement => [Field(ObjectField, UnionType(Expression)), Field(BodyField, UnionType(Statement))]
    case YieldExpression => [Field(ArgumentField, NullableType(UnionType(Expression))), Field(DelegateField, BoolType)]
    case TemplateElementValue => [Field(CookedField, StringType), Field(RawField, StringType)]
    case Regex => [Field(PatternField, StringType), Field(FlagsField, StringType)]
  }

  /** The alternatives of each union, in `OneOf` order. */
  function AltsOf(u: UnionName): seq<SyntaxType> {
    match u
    case StatementListItem => [UnionType(Declaration), UnionType(Statement)]
    case ModuleItem => [StructType(ImportDeclaration), UnionType(ExportDeclaration), UnionType(StatementListItem)]
    case ArgumentListElement => [UnionType(Expression), StructType(SpreadElement)]
    case ArrayExpressionElement => [UnionType(Expression), StructType(SpreadElement), ExplicitNullType]
    case ArrayPatternElement => [StructType(AssignmentPattern), StructType(Identifier), UnionType(BindingPattern), StructType(RestElement), ExplicitNullType]
    case BindingPattern => [StructType(ArrayPattern), StructType(ObjectPattern)]
    case Declaration => [StructType(AsyncFunctionDeclaration), StructType(ClassDeclaration), UnionType(ExportDeclaration), StructType(FunctionDeclaration), StructType(ImportDeclaration), StructType(VariableDeclaration)]
    case ExportableDefaultDeclaration => [StructType(Identifier), UnionType(BindingPattern), StructType(ClassDeclaration), UnionType(Expression), StructType(FunctionDeclaration)]
    case ExportableNamedDeclaration => [StructType(AsyncFunctionDeclaration), StructType(ClassDeclaration), StructType(FunctionDeclaration), StructType(VariableDeclaration)]
    case ExportDeclaration => [StructType(ExportAllDeclaration), StructType(ExportDefaultDeclaration), StructType(ExportNamedDeclaration)]
    case Expression => [StructType(ArrayExpression), StructType(ArrowFunctionExpression), StructType(AssignmentExpression), StructType(AsyncArrowFunctionExpression), StructType(AsyncFunctionExpression), StructType(AwaitExpression), StructType(BinaryExpression), StructType(CallExpression), StructType(ClassExpression), StructType(ComputedMemberExpression), StructType(ConditionalExpression), StructType(Identifier), StructType(FunctionExpression), StructType(Literal), StructType(NewExpression), StructType(ObjectExpression), StructType(RegexLiteral), StructType(SequenceExpression), StructType(StaticMemberExpression), StructType(TaggedTemplateExpression), StructType(ThisExpression), StructType(UnaryExpression), StructType(UpdateExpression), StructType(YieldExpression)]
    case FunctionParameter => [StructType(AssignmentPattern), StructType(Identifier), UnionType(BindingPattern)]
    case ImportDeclarationSpecifier => [StructType(ImportDefaultSpecifier), StructType(ImportNamespaceSpecifier), StructType(ImportSpecifier)]
    case ObjectExpressionProperty => [StructType(Property), StructType(SpreadElement)]
    case ObjectPatternProperty => [StructType(Property), StructType(RestElement)]
    case Statement => [StructType(BlockStatement), StructType(BreakStatement), StructType(ContinueStatement), StructType(DebuggerStatement), StructType(DoWhileStatement), StructType(EmptyStatement), StructType(ForStatement), StructType(ExpressionStatement), StructType(Directive), StructType(ForInStatement), StructType(ForOfStatement), StructType(FunctionDeclaration), StructType(IfStatement), StructType(ReturnStatement), StructType(SwitchStatement), StructType(ThrowStatement), StructType(TryStatement), StructType(VariableDeclaration), StructType(WhileStatement), StructType(WithStatement)]
    case PropertyKey => [StructType(Identifier), StructType(Literal)]
    case PropertyValue => [StructType(AssignmentPattern), StructType(AsyncFunctionExpression), StructType(Identifier), UnionType(BindingPattern), StructType(FunctionExpression)]
    case ArrowBody => [StructType(BlockStatement), UnionType(Expression)]
    case Callee => [UnionType(Expression), StructType(Import)]
    case BindingTarget => [StructType(Identifier), UnionType(BindingPattern)]
    case MethodValue => [StructType(AsyncFunctionExpression), StructType(FunctionExpression), ExplicitNullType]
    case LiteralValue => [BoolType, NumberType, StringType, ExplicitNullType]
  }

  /** How deeply unions nest inside each union. */
  function LevelOf(u: UnionName): nat {
    match u
    case BindingPattern | ExportableNamedDeclaration | ExportDeclaration | Expression | ImportDeclarationSpecifier | ObjectExpressionProperty | ObjectPatternProperty | Statement | PropertyKey | MethodValue | LiteralValue => 0
    case ArgumentListElement | ArrayExpressionElement | ArrayPatternElement | Declaration | ExportableDefaultDeclaration | FunctionParameter | PropertyValue | ArrowBody | Callee | BindingTarget => 1
    case StatementListItem => 2
    case ModuleItem => 3
  }

  /** The schema of the whole syntax tree. */
  const Syntax: Schema<StructName, UnionName, NodeType, FieldKey> :=
    Schema(KindOf, RawValue, FieldsOf, KeyName, AltsOf, LevelOf)
}
