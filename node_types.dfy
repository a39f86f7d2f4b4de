/** The node-type enums of the `JSSyntax` structs.

    Every node struct declares a single-case `String` enum whose raw value is the
    tag written under "type".  Here they are the constructors of one `NodeType`;
    `Script` and `Module` share `ProgramNodeType`, whose raw value is "Program",
    and `TemplateElement`'s tag is its own name. */
module NodeTypes {
  import opened Json

  datatype NodeType =
    | ArrayExpressionNodeType
    | ArrayPatternNodeType
    | ArrowFunctionExpressionNodeType
    | AssignmentExpressionNodeType
    | AssignmentPatternNodeType
    | AsyncArrowFunctionExpressionNodeType
    | AsyncFunctionDeclarationNodeType
    | AsyncFunctionExpressionNodeType
    | AwaitExpressionNodeType
    | BinaryExpressionNodeType
    | BlockStatementNodeType
    | BreakStatementNodeType
    | CallExpressionNodeType
    | CatchClauseNodeType
    | ClassBodyNodeType
    | ClassDeclarationNodeType
    | ClassExpressionNodeType
    | ComputedMemberExpressionNodeType
    | ConditionalExpressionNodeType
    | ContinueStatementNodeType
    | DebuggerStatementNodeType
    | DirectiveNodeType
    | DoWhileStatementNodeType
    | EmptyStatementNodeType
    | ExportAllDeclarationNodeType
    | ExportDefaultDeclarationNodeType
    | ExportNamedDeclarationNodeType
    | ExportSpecifierNodeType
    | ExpressionStatementNodeType
    | ForInStatementNodeType
    | ForOfStatementNodeType
    | ForStatementNodeType
    | FunctionDeclarationNodeType
    | FunctionExpressionNodeType
    | IdentifierNodeType
    | IfStatementNodeType
    | ImportNodeType
    | ImportDeclarationNodeType
    | ImportDefaultSpecifierNodeType
    | ImportNamespaceSpecifierNodeType
    | ImportSpecifierNodeType
    | LabeledStatementNodeType
    | LiteralNodeType
    | MetaPropertyNodeType
    | MethodDefinitionNodeType
    | NewExpressionNodeType
    | ObjectExpressionNodeType
    | ObjectPatternNodeType
    | ProgramNodeType
    | PropertyNodeType
    | RegexLiteralNodeType
    | RestElementNodeType
    | ReturnStatementNodeType
    | SequenceExpressionNodeType
    | SpreadElementNodeType
    | StaticMemberExpressionNodeType
    | SuperNodeType
    | SwitchCaseNodeType
    | SwitchStatementNodeType
    | TaggedTemplateExpressionNodeType
    | TemplateElementValueNodeType
    | TemplateLiteralNodeType
    | ThisExpressionNodeType
    | ThrowStatementNodeType
    | TryStatementNodeType
    | UnaryExpressionNodeType
    | UpdateExpressionNodeType
    | VariableDeclarationNodeType
    | VariableDeclaratorNodeType
    | WhileStatementNodeType
    | WithStatementNodeType
    | YieldExpressionNodeType

  /** The raw value of each case: the node's tag. */
  function RawValue(k: NodeType): string {
    match k
    case ArrayExpressionNodeType => "ArrayExpression"
    case ArrayPatternNodeType => "ArrayPattern"
    case ArrowFunctionExpressionNodeType => "ArrowFunctionExpression"
    case AssignmentExpressionNodeType => "AssignmentExpression"
    case AssignmentPatternNodeType => "AssignmentPattern"
    case AsyncArrowFunctionExpressionNodeType => "AsyncArrowFunctionExpression"
    case AsyncFunctionDeclarationNodeType => "AsyncFunctionDeclaration"
    case AsyncFunctionExpressionNodeType => "AsyncFunctionExpression"
    case AwaitExpressionNodeType => "AwaitExpression"
    case BinaryExpressionNodeType => "BinaryExpression"
    case BlockStatementNodeType => "BlockStatement"
    case BreakStatementNodeType => "BreakStatement"
    case CallExpressionNodeType => "CallExpression"
    case CatchClauseNodeType => "CatchClause"
    case ClassBodyNodeType => "ClassBody"
    case ClassDeclarationNodeType => "ClassDeclaration"
    case ClassExpressionNodeType => "ClassExpression"
    case ComputedMemberExpressionNodeType => "ComputedMemberExpression"
    case ConditionalExpressionNodeType => "ConditionalExpression"
    case ContinueStatementNodeType => "ContinueStatement"
    case DebuggerStatementNodeType => "DebuggerStatement"
    case DirectiveNodeType => "Directive"
    case DoWhileStatementNodeType => "DoWhileStatement"
    case EmptyStatementNodeType => "EmptyStatement"
    case ExportAllDeclarationNodeType => "ExportAllDeclaration"
    case ExportDefaultDeclarationNodeType => "ExportDefaultDeclaration"
    case ExportNamedDeclarationNodeType => "ExportNamedDeclaration"
    case ExportSpecifierNodeType => "ExportSpecifier"
    case ExpressionStatementNodeType => "ExpressionStatement"
    case ForInStatementNodeType => "ForInStatement"
    case ForOfStatementNodeType => "ForOfStatement"
    case ForStatementNodeType => "ForStatement"
    case FunctionDeclarationNodeType => "FunctionDeclaration"
    case FunctionExpressionNodeType => "FunctionExpression"
    case IdentifierNodeType => "Identifier"
    case IfStatementNodeType => "IfStatement"
    case ImportNodeType => "Import"
    case ImportDeclarationNodeType => "ImportDeclaration"
    case ImportDefaultSpecifierNodeType => "ImportDefaultSpecifier"
    case ImportNamespaceSpecifierNodeType => "ImportNamespaceSpecifier"
    case ImportSpecifierNodeType => "ImportSpecifier"
    case LabeledStatementNodeType => "LabeledStatement"
    case LiteralNodeType => "Literal"
    case MetaPropertyNodeType => "MetaProperty"
    case MethodDefinitionNodeType => "MethodDefinition"
    case NewExpressionNodeType => "NewExpression"
    case ObjectExpressionNodeType => "ObjectExpression"
    case ObjectPatternNodeType => "ObjectPattern"
    case ProgramNodeType => "Program"
    case PropertyNodeType => "Property"
    case RegexLiteralNodeType => "RegexLiteral"
    case RestElementNodeType => "RestElement"
    case ReturnStatementNodeType => "ReturnStatement"
    case SequenceExpressionNodeType => "SequenceExpression"
    case SpreadElementNodeType => "SpreadElement"
    case StaticMemberExpressionNodeType => "StaticMemberExpression"
    case SuperNodeType => "Super"
    case SwitchCaseNodeType => "SwitchCase"
    case SwitchStatementNodeType => "SwitchStatement"
    case TaggedTemplateExpressionNodeType => "TaggedTemplateExpression"
    case TemplateElementValueNodeType => "TemplateElement"
    case TemplateLiteralNodeType => "TemplateLiteral"
    case ThisExpressionNodeType => "ThisExpression"
    case ThrowStatementNodeType => "ThrowStatement"
    case TryStatementNodeType => "TryStatement"
    case UnaryExpressionNodeType => "UnaryExpression"
    case UpdateExpressionNodeType => "UpdateExpression"
    case VariableDeclarationNodeType => "VariableDeclaration"
    case VariableDeclaratorNodeType => "VariableDeclarator"
    case WhileStatementNodeType => "WhileStatement"
    case WithStatementNodeType => "WithStatement"
    case YieldExpressionNodeType => "YieldExpression"
  }

  /** The one node type whose raw value `t` could be, read from `t`'s length and
      a few of its characters. */
  function Candidate(t: string): Option<NodeType> {
    match |t|
    case 5 => Some(SuperNodeType)
    case 6 => Some(ImportNodeType)
    case 7 => (if t[6] == 'l' then Some(LiteralNodeType)
        else Some(ProgramNodeType))
    case 8 => Some(PropertyNodeType)
    case 9 => (if t[8] == 'e' then Some(DirectiveNodeType)
        else Some(ClassBodyNodeType))
    case 10 => (if t[9] == 'e' then Some(SwitchCaseNodeType)
        else Some(IdentifierNodeType))
    case 11 => (if t[5] == 'C' then Some(CatchClauseNodeType)
        else if t[5] == 'l' then Some(RestElementNodeType)
        else Some(IfStatementNodeType))
    case 12 => (if t[0] == 'A' then Some(ArrayPatternNodeType)
        else if t[0] == 'F' then Some(ForStatementNodeType)
        else if t[0] == 'M' then Some(MetaPropertyNodeType)
        else if t[0] == 'R' then Some(RegexLiteralNodeType)
        else Some(TryStatementNodeType))
    case 13 => (if t[7] == 'a' then Some(ObjectPatternNodeType)
        else if t[7] == 'e' then Some(NewExpressionNodeType)
        else if t[7] == 'l' then Some(SpreadElementNodeType)
        else Some(WithStatementNodeType))
    case 14 => (if t[3] == 'I' then Some(ForInStatementNodeType)
        else if t[3] == 'O' then Some(ForOfStatementNodeType)
        else if t[3] == 'a' then Some(BreakStatementNodeType)
        else if t[3] == 'c' then Some(BlockStatementNodeType)
        else if t[3] == 'l' then (if t[13] == 'n' then Some(CallExpressionNodeType)
          else Some(WhileStatementNodeType))
        else if t[3] == 'o' then Some(ThrowStatementNodeType)
        else if t[3] == 's' then Some(ThisExpressionNodeType)
        else Some(EmptyStatementNodeType))
    case 15 => (if t[3] == 'a' then Some(ArrayExpressionNodeType)
        else if t[3] == 'i' then Some(AwaitExpressionNodeType)
        else if t[3] == 'l' then Some(YieldExpressionNodeType)
        else if t[3] == 'o' then (if t[1] == 'm' then Some(ImportSpecifierNodeType)
          else Some(ExportSpecifierNodeType))
        else if t[3] == 'p' then (if t[14] == 'l' then Some(TemplateLiteralNodeType)
          else Some(TemplateElementValueNodeType))
        else if t[3] == 'r' then Some(UnaryExpressionNodeType)
        else if t[3] == 's' then Some(ClassExpressionNodeType)
        else if t[3] == 't' then Some(SwitchStatementNodeType)
        else Some(ReturnStatementNodeType))
    case 16 => (if t[4] == 'c' then Some(ObjectExpressionNodeType)
        else if t[4] == 'i' then Some(DoWhileStatementNodeType)
        else if t[4] == 'l' then Some(LabeledStatementNodeType)
        else if t[4] == 'o' then Some(MethodDefinitionNodeType)
        else if t[4] == 'r' then Some(BinaryExpressionNodeType)
        else if t[4] == 's' then Some(ClassDeclarationNodeType)
        else Some(UpdateExpressionNodeType))
    case 17 => (if t[6] == 'D' then Some(ImportDeclarationNodeType)
        else if t[6] == 'e' then Some(DebuggerStatementNodeType)
        else if t[6] == 'm' then Some(AssignmentPatternNodeType)
        else Some(ContinueStatementNodeType))
    case 18 => (if t[6] == 'c' then Some(SequenceExpressionNodeType)
        else if t[6] == 'l' then Some(VariableDeclaratorNodeType)
        else Some(FunctionExpressionNodeType))
    case 19 => (if t[7] == 'e' then Some(VariableDeclarationNodeType)
        else if t[7] == 'i' then Some(ExpressionStatementNodeType)
        else Some(FunctionDeclarationNodeType))
    case 20 => (if t[16] == 's' then Some(AssignmentExpressionNodeType)
        else Some(ExportAllDeclarationNodeType))
    case 21 => Some(ConditionalExpressionNodeType)
    case 22 => (if t[18] == 'f' then Some(ImportDefaultSpecifierNodeType)
        else if t[18] == 's' then Some(StaticMemberExpressionNodeType)
        else Some(ExportNamedDeclarationNodeType))
    case 23 => (if t[4] == 'c' then Some(AsyncFunctionExpressionNodeType)
        else Some(ArrowFunctionExpressionNodeType))
    case 24 => (if t[11] == 'a' then Some(TaggedTemplateExpressionNodeType)
        else if t[11] == 'b' then Some(ComputedMemberExpressionNodeType)
        else if t[11] == 'l' then Some(ExportDefaultDeclarationNodeType)
        else if t[11] == 'o' then Some(AsyncFunctionDeclarationNodeType)
        else Some(ImportNamespaceSpecifierNodeType))
    case 28 => Some(AsyncArrowFunctionExpressionNodeType)
    case _ => None
  }

  /** `NodeType(rawValue:)`: the node type whose raw value is exactly `t`, if any. */
  function ParseNodeType(t: string): (r: Option<NodeType>)
    ensures r.Some? ==> RawValue(r.value) == t
  {
    match Candidate(t)
    case Some(k) => if RawValue(k) == t then Some(k) else None
    case None => None
  }

  /** Every raw value parses back to its own node type. */
  lemma ParseRawValue(k: NodeType)
    ensures ParseNodeType(RawValue(k)) == Some(k)
  {
    match k
    case ArrayExpressionNodeType => ArrayExpressionNodeTypeParses();
    case ArrayPatternNodeType => ArrayPatternNodeTypeParses();
    case ArrowFunctionExpressionNodeType => ArrowFunctionExpressionNodeTypeParses();
    case AssignmentExpressionNodeType => AssignmentExpressionNodeTypeParses();
    case AssignmentPatternNodeType => AssignmentPatternNodeTypeParses();
    case AsyncArrowFunctionExpressionNodeType => AsyncArrowFunctionExpressionNodeTypeParses();
    case AsyncFunctionDeclarationNodeType => AsyncFunctionDeclarationNodeTypeParses();
    case AsyncFunctionExpressionNodeType => AsyncFunctionExpressionNodeTypeParses();
    case AwaitExpressionNodeType => AwaitExpressionNodeTypeParses();
    case BinaryExpressionNodeType => BinaryExpressionNodeTypeParses();
    case BlockStatementNodeType => BlockStatementNodeTypeParses();
    case BreakStatementNodeType => BreakStatementNodeTypeParses();
    case CallExpressionNodeType => CallExpressionNodeTypeParses();
    case CatchClauseNodeType => CatchClauseNodeTypeParses();
    case ClassBodyNodeType => ClassBodyNodeTypeParses();
    case ClassDeclarationNodeType => ClassDeclarationNodeTypeParses();
    case ClassExpressionNodeType => ClassExpressionNodeTypeParses();
    case ComputedMemberExpressionNodeType => ComputedMemberExpressionNodeTypeParses();
    case ConditionalExpressionNodeType => ConditionalExpressionNodeTypeParses();
    case ContinueStatementNodeType => ContinueStatementNodeTypeParses();
    case DebuggerStatementNodeType => DebuggerStatementNodeTypeParses();
    case DirectiveNodeType => DirectiveNodeTypeParses();
    case DoWhileStatementNodeType => DoWhileStatementNodeTypeParses();
    case EmptyStatementNodeType => EmptyStatementNodeTypeParses();
    case ExportAllDeclarationNodeType => ExportAllDeclarationNodeTypeParses();
    case ExportDefaultDeclarationNodeType => ExportDefaultDeclarationNodeTypeParses();
    case ExportNamedDeclarationNodeType => ExportNamedDeclarationNodeTypeParses();
    case ExportSpecifierNodeType => ExportSpecifierNodeTypeParses();
    case ExpressionStatementNodeType => ExpressionStatementNodeTypeParses();
    case ForInStatementNodeType => ForInStatementNodeTypeParses();
    case ForOfStatementNodeType => ForOfStatementNodeTypeParses();
    case ForStatementNodeType => ForStatementNodeTypeParses();
    case FunctionDeclarationNodeType => FunctionDeclarationNodeTypeParses();
    case FunctionExpressionNodeType => FunctionExpressionNodeTypeParses();
    case IdentifierNodeType => IdentifierNodeTypeParses();
    case IfStatementNodeType => IfStatementNodeTypeParses();
    case ImportNodeType => ImportNodeTypeParses();
    case ImportDeclarationNodeType => ImportDeclarationNodeTypeParses();
    case ImportDefaultSpecifierNodeType => ImportDefaultSpecifierNodeTypeParses();
    case ImportNamespaceSpecifierNodeType => ImportNamespaceSpecifierNodeTypeParses();
    case ImportSpecifierNodeType => ImportSpecifierNodeTypeParses();
    case LabeledStatementNodeType => LabeledStatementNodeTypeParses();
    case LiteralNodeType => LiteralNodeTypeParses();
    case MetaPropertyNodeType => MetaPropertyNodeTypeParses();
    case MethodDefinitionNodeType => MethodDefinitionNodeTypeParses();
    case NewExpressionNodeType => NewExpressionNodeTypeParses();
    case ObjectExpressionNodeType => ObjectExpressionNodeTypeParses();
    case ObjectPatternNodeType => ObjectPatternNodeTypeParses();
    case ProgramNodeType => ProgramNodeTypeParses();
    case PropertyNodeType => PropertyNodeTypeParses();
    case RegexLiteralNodeType => RegexLiteralNodeTypeParses();
    case RestElementNodeType => RestElementNodeTypeParses();
    case ReturnStatementNodeType => ReturnStatementNodeTypeParses();
    case SequenceExpressionNodeType => SequenceExpressionNodeTypeParses();
    case SpreadElementNodeType => SpreadElementNodeTypeParses();
    case StaticMemberExpressionNodeType => StaticMemberExpressionNodeTypeParses();
    case SuperNodeType => SuperNodeTypeParses();
    case SwitchCaseNodeType => SwitchCaseNodeTypeParses();
    case SwitchStatementNodeType => SwitchStatementNodeTypeParses();
    case TaggedTemplateExpressionNodeType => TaggedTemplateExpressionNodeTypeParses();
    case TemplateElementValueNodeType => TemplateElementValueNodeTypeParses();
    case TemplateLiteralNodeType => TemplateLiteralNodeTypeParses();
    case ThisExpressionNodeType => ThisExpressionNodeTypeParses();
    case ThrowStatementNodeType => ThrowStatementNodeTypeParses();
    case TryStatementNodeType => TryStatementNodeTypeParses();
    case UnaryExpressionNodeType => UnaryExpressionNodeTypeParses();
    case UpdateExpressionNodeType => UpdateExpressionNodeTypeParses();
    case VariableDeclarationNodeType => VariableDeclarationNodeTypeParses();
    case VariableDeclaratorNodeType => VariableDeclaratorNodeTypeParses();
    case WhileStatementNodeType => WhileStatementNodeTypeParses();
    case WithStatementNodeType => WithStatementNodeTypeParses();
    case YieldExpressionNodeType => YieldExpressionNodeTypeParses();
  }

  // Table facts, one per node type, generated from the raw-value table. Each is
  // a single evaluation, proved without a body; the lemma above is their case split.

  lemma ArrayExpressionNodeTypeParses()
    ensures RawValue(ArrayExpressionNodeType) == "ArrayExpression" && ParseNodeType("ArrayExpression") == Some(ArrayExpressionNodeType)
  {
  }

  lemma ArrayPatternNodeTypeParses()
    ensures RawValue(ArrayPatternNodeType) == "ArrayPattern" && ParseNodeType("ArrayPattern") == Some(ArrayPatternNodeType)
  {
  }

  lemma ArrowFunctionExpressionNodeTypeParses()
    ensures RawValue(ArrowFunctionExpressionNodeType) == "ArrowFunctionExpression" && ParseNodeType("ArrowFunctionExpression") == Some(ArrowFunctionExpressionNodeType)
  {
  }

  lemma AssignmentExpressionNodeTypeParses()
    ensures RawValue(AssignmentExpressionNodeType) == "AssignmentExpression" && ParseNodeType("AssignmentExpression") == Some(AssignmentExpressionNodeType)
  {
  }

  lemma AssignmentPatternNodeTypeParses()
    ensures RawValue(AssignmentPatternNodeType) == "AssignmentPattern" && ParseNodeType("AssignmentPattern") == Some(AssignmentPatternNodeType)
  {
  }

  lemma AsyncArrowFunctionExpressionNodeTypeParses()
    ensures RawValue(AsyncArrowFunctionExpressionNodeType) == "AsyncArrowFunctionExpression" && ParseNodeType("AsyncArrowFunctionExpression") == Some(AsyncArrowFunctionExpressionNodeType)
  {
  }

  lemma AsyncFunctionDeclarationNodeTypeParses()
    ensures RawValue(AsyncFunctionDeclarationNodeType) == "AsyncFunctionDeclaration" && ParseNodeType("AsyncFunctionDeclaration") == Some(AsyncFunctionDeclarationNodeType)
  {
  }

  lemma AsyncFunctionExpressionNodeTypeParses()
    ensures RawValue(AsyncFunctionExpressionNodeType) == "AsyncFunctionExpression" && ParseNodeType("AsyncFunctionExpression") == Some(AsyncFunctionExpressionNodeType)
  {
  }

  lemma AwaitExpressionNodeTypeParses()
    ensures RawValue(AwaitExpressionNodeType) == "AwaitExpression" && ParseNodeType("AwaitExpression") == Some(AwaitExpressionNodeType)
  {
  }

  lemma BinaryExpressionNodeTypeParses()
    ensures RawValue(BinaryExpressionNodeType) == "BinaryExpression" && ParseNodeType("BinaryExpression") == Some(BinaryExpressionNodeType)
  {
  }

  lemma BlockStatementNodeTypeParses()
    ensures RawValue(BlockStatementNodeType) == "BlockStatement" && ParseNodeType("BlockStatement") == Some(BlockStatementNodeType)
  {
  }

  lemma BreakStatementNodeTypeParses()
    ensures RawValue(BreakStatementNodeType) == "BreakStatement" && ParseNodeType("BreakStatement") == Some(BreakStatementNodeType)
  {
  }

  lemma CallExpressionNodeTypeParses()
    ensures RawValue(CallExpressionNodeType) == "CallExpression" && ParseNodeType("CallExpression") == Some(CallExpressionNodeType)
  {
  }

  lemma CatchClauseNodeTypeParses()
    ensures RawValue(CatchClauseNodeType) == "CatchClause" && ParseNodeType("CatchClause") == Some(CatchClauseNodeType)
  {
  }

  lemma ClassBodyNodeTypeParses()
    ensures RawValue(ClassBodyNodeType) == "ClassBody" && ParseNodeType("ClassBody") == Some(ClassBodyNodeType)
  {
  }

  lemma ClassDeclarationNodeTypeParses()
    ensures RawValue(ClassDeclarationNodeType) == "ClassDeclaration" && ParseNodeType("ClassDeclaration") == Some(ClassDeclarationNodeType)
  {
  }

  lemma ClassExpressionNodeTypeParses()
    ensures RawValue(ClassExpressionNodeType) == "ClassExpression" && ParseNodeType("ClassExpression") == Some(ClassExpressionNodeType)
  {
  }

  lemma ComputedMemberExpressionNodeTypeParses()
    ensures RawValue(ComputedMemberExpressionNodeType) == "ComputedMemberExpression" && ParseNodeType("ComputedMemberExpression") == Some(ComputedMemberExpressionNodeType)
  {
  }

  lemma ConditionalExpressionNodeTypeParses()
    ensures RawValue(ConditionalExpressionNodeType) == "ConditionalExpression" && ParseNodeType("ConditionalExpression") == Some(ConditionalExpressionNodeType)
  {
  }

  lemma ContinueStatementNodeTypeParses()
    ensures RawValue(ContinueStatementNodeType) == "ContinueStatement" && ParseNodeType("ContinueStatement") == Some(ContinueStatementNodeType)
  {
  }

  lemma DebuggerStatementNodeTypeParses()
    ensures RawValue(DebuggerStatementNodeType) == "DebuggerStatement" && ParseNodeType("DebuggerStatement") == Some(DebuggerStatementNodeType)
  {
  }

  lemma DirectiveNodeTypeParses()
    ensures RawValue(DirectiveNodeType) == "Directive" && ParseNodeType("Directive") == Some(DirectiveNodeType)
  {
  }

  lemma DoWhileStatementNodeTypeParses()
    ensures RawValue(DoWhileStatementNodeType) == "DoWhileStatement" && ParseNodeType("DoWhileStatement") == Some(DoWhileStatementNodeType)
  {
  }

  lemma EmptyStatementNodeTypeParses()
    ensures RawValue(EmptyStatementNodeType) == "EmptyStatement" && ParseNodeType("EmptyStatement") == Some(EmptyStatementNodeType)
  {
  }

  lemma ExportAllDeclarationNodeTypeParses()
    ensures RawValue(ExportAllDeclarationNodeType) == "ExportAllDeclaration" && ParseNodeType("ExportAllDeclaration") == Some(ExportAllDeclarationNodeType)
  {
  }

  lemma ExportDefaultDeclarationNodeTypeParses()
    ensures RawValue(ExportDefaultDeclarationNodeType) == "ExportDefaultDeclaration" && ParseNodeType("ExportDefaultDeclaration") == Some(ExportDefaultDeclarationNodeType)
  {
  }

  lemma ExportNamedDeclarationNodeTypeParses()
    ensures RawValue(ExportNamedDeclarationNodeType) == "ExportNamedDeclaration" && ParseNodeType("ExportNamedDeclaration") == Some(ExportNamedDeclarationNodeType)
  {
  }

  lemma ExportSpecifierNodeTypeParses()
    ensures RawValue(ExportSpecifierNodeType) == "ExportSpecifier" && ParseNodeType("ExportSpecifier") == Some(ExportSpecifierNodeType)
  {
  }

  lemma ExpressionStatementNodeTypeParses()
    ensures RawValue(ExpressionStatementNodeType) == "ExpressionStatement" && ParseNodeType("ExpressionStatement") == Some(ExpressionStatementNodeType)
  {
  }

  lemma ForInStatementNodeTypeParses()
    ensures RawValue(ForInStatementNodeType) == "ForInStatement" && ParseNodeType("ForInStatement") == Some(ForInStatementNodeType)
  {
  }

  lemma ForOfStatementNodeTypeParses()
    ensures RawValue(ForOfStatementNodeType) == "ForOfStatement" && ParseNodeType("ForOfStatement") == Some(ForOfStatementNodeType)
  {
  }

  lemma ForStatementNodeTypeParses()
    ensures RawValue(ForStatementNodeType) == "ForStatement" && ParseNodeType("ForStatement") == Some(ForStatementNodeType)
  {
  }

  lemma FunctionDeclarationNodeTypeParses()
    ensures RawValue(FunctionDeclarationNodeType) == "FunctionDeclaration" && ParseNodeType("FunctionDeclaration") == Some(FunctionDeclarationNodeType)
  {
  }

  lemma FunctionExpressionNodeTypeParses()
    ensures RawValue(FunctionExpressionNodeType) == "FunctionExpression" && ParseNodeType("FunctionExpression") == Some(FunctionExpressionNodeType)
  {
  }

  lemma IdentifierNodeTypeParses()
    ensures RawValue(IdentifierNodeType) == "Identifier" && ParseNodeType("Identifier") == Some(IdentifierNodeType)
  {
  }

  lemma IfStatementNodeTypeParses()
    ensures RawValue(IfStatementNodeType) == "IfStatement" && ParseNodeType("IfStatement") == Some(IfStatementNodeType)
  {
  }

  lemma ImportNodeTypeParses()
    ensures RawValue(ImportNodeType) == "Import" && ParseNodeType("Import") == Some(ImportNodeType)
  {
  }

  lemma ImportDeclarationNodeTypeParses()
    ensures RawValue(ImportDeclarationNodeType) == "ImportDeclaration" && ParseNodeType("ImportDeclaration") == Some(ImportDeclarationNodeType)
  {
  }

  lemma ImportDefaultSpecifierNodeTypeParses()
    ensures RawValue(ImportDefaultSpecifierNodeType) == "ImportDefaultSpecifier" && ParseNodeType("ImportDefaultSpecifier") == Some(ImportDefaultSpecifierNodeType)
  {
  }

  lemma ImportNamespaceSpecifierNodeTypeParses()
    ensures RawValue(ImportNamespaceSpecifierNodeType) == "ImportNamespaceSpecifier" && ParseNodeType("ImportNamespaceSpecifier") == Some(ImportNamespaceSpecifierNodeType)
  {
  }

  lemma ImportSpecifierNodeTypeParses()
    ensures RawValue(ImportSpecifierNodeType) == "ImportSpecifier" && ParseNodeType("ImportSpecifier") == Some(ImportSpecifierNodeType)
  {
  }

  lemma LabeledStatementNodeTypeParses()
    ensures RawValue(LabeledStatementNodeType) == "LabeledStatement" && ParseNodeType("LabeledStatement") == Some(LabeledStatementNodeType)
  {
  }

  lemma LiteralNodeTypeParses()
    ensures RawValue(LiteralNodeType) == "Literal" && ParseNodeType("Literal") == Some(LiteralNodeType)
  {
  }

  lemma MetaPropertyNodeTypeParses()
    ensures RawValue(MetaPropertyNodeType) == "MetaProperty" && ParseNodeType("MetaProperty") == Some(MetaPropertyNodeType)
  {
  }

  lemma MethodDefinitionNodeTypeParses()
    ensures RawValue(MethodDefinitionNodeType) == "MethodDefinition" && ParseNodeType("MethodDefinition") == Some(MethodDefinitionNodeType)
  {
  }

  lemma NewExpressionNodeTypeParses()
    ensures RawValue(NewExpressionNodeType) == "NewExpression" && ParseNodeType("NewExpression") == Some(NewExpressionNodeType)
  {
  }

  lemma ObjectExpressionNodeTypeParses()
    ensures RawValue(ObjectExpressionNodeType) == "ObjectExpression" && ParseNodeType("ObjectExpression") == Some(ObjectExpressionNodeType)
  {
  }

  lemma ObjectPatternNodeTypeParses()
    ensures RawValue(ObjectPatternNodeType) == "ObjectPattern" && ParseNodeType("ObjectPattern") == Some(ObjectPatternNodeType)
  {
  }

  lemma ProgramNodeTypeParses()
    ensures RawValue(ProgramNodeType) == "Program" && ParseNodeType("Program") == Some(ProgramNodeType)
  {
  }

  lemma PropertyNodeTypeParses()
    ensures RawValue(PropertyNodeType) == "Property" && ParseNodeType("Property") == Some(PropertyNodeType)
  {
  }

  lemma RegexLiteralNodeTypeParses()
    ensures RawValue(RegexLiteralNodeType) == "RegexLiteral" && ParseNodeType("RegexLiteral") == Some(RegexLiteralNodeType)
  {
  }

  lemma RestElementNodeTypeParses()
    ensures RawValue(RestElementNodeType) == "RestElement" && ParseNodeType("RestElement") == Some(RestElementNodeType)
  {
  }

  lemma ReturnStatementNodeTypeParses()
    ensures RawValue(ReturnStatementNodeType) == "ReturnStatement" && ParseNodeType("ReturnStatement") == Some(ReturnStatementNodeType)
  {
  }

  lemma SequenceExpressionNodeTypeParses()
    ensures RawValue(SequenceExpressionNodeType) == "SequenceExpression" && ParseNodeType("SequenceExpression") == Some(SequenceExpressionNodeType)
  {
  }

  lemma SpreadElementNodeTypeParses()
    ensures RawValue(SpreadElementNodeType) == "SpreadElement" && ParseNodeType("SpreadElement") == Some(SpreadElementNodeType)
  {
  }

  lemma StaticMemberExpressionNodeTypeParses()
    ensures RawValue(StaticMemberExpressionNodeType) == "StaticMemberExpression" && ParseNodeType("StaticMemberExpression") == Some(StaticMemberExpressionNodeType)
  {
  }

  lemma SuperNodeTypeParses()
    ensures RawValue(SuperNodeType) == "Super" && ParseNodeType("Super") == Some(SuperNodeType)
  {
  }

  lemma SwitchCaseNodeTypeParses()
    ensures RawValue(SwitchCaseNodeType) == "SwitchCase" && ParseNodeType("SwitchCase") == Some(SwitchCaseNodeType)
  {
  }

  lemma SwitchStatementNodeTypeParses()
    ensures RawValue(SwitchStatementNodeType) == "SwitchStatement" && ParseNodeType("SwitchStatement") == Some(SwitchStatementNodeType)
  {
  }

  lemma TaggedTemplateExpressionNodeTypeParses()
    ensures RawValue(TaggedTemplateExpressionNodeType) == "TaggedTemplateExpression" && ParseNodeType("TaggedTemplateExpression") == Some(TaggedTemplateExpressionNodeType)
  {
  }

  lemma TemplateElementValueNodeTypeParses()
    ensures RawValue(TemplateElementValueNodeType) == "TemplateElement" && ParseNodeType("TemplateElement") == Some(TemplateElementValueNodeType)
  {
  }

  lemma TemplateLiteralNodeTypeParses()
    ensures RawValue(TemplateLiteralNodeType) == "TemplateLiteral" && ParseNodeType("TemplateLiteral") == Some(TemplateLiteralNodeType)
  {
  }

  lemma ThisExpressionNodeTypeParses()
    ensures RawValue(ThisExpressionNodeType) == "ThisExpression" && ParseNodeType("ThisExpression") == Some(ThisExpressionNodeType)
  {
  }

  lemma ThrowStatementNodeTypeParses()
    ensures RawValue(ThrowStatementNodeType) == "ThrowStatement" && ParseNodeType("ThrowStatement") == Some(ThrowStatementNodeType)
  {
  }

  lemma TryStatementNodeTypeParses()
    ensures RawValue(TryStatementNodeType) == "TryStatement" && ParseNodeType("TryStatement") == Some(TryStatementNodeType)
  {
  }

  lemma UnaryExpressionNodeTypeParses()
    ensures RawValue(UnaryExpressionNodeType) == "UnaryExpression" && ParseNodeType("UnaryExpression") == Some(UnaryExpressionNodeType)
  {
  }

  lemma UpdateExpressionNodeTypeParses()
    ensures RawValue(UpdateExpressionNodeType) == "UpdateExpression" && ParseNodeType("UpdateExpression") == Some(UpdateExpressionNodeType)
  {
  }

  lemma VariableDeclarationNodeTypeParses()
    ensures RawValue(VariableDeclarationNodeType) == "VariableDeclaration" && ParseNodeType("VariableDeclaration") == Some(VariableDeclarationNodeType)
  {
  }

  lemma VariableDeclaratorNodeTypeParses()
    ensures RawValue(VariableDeclaratorNodeType) == "VariableDeclarator" && ParseNodeType("VariableDeclarator") == Some(VariableDeclaratorNodeType)
  {
  }

  lemma WhileStatementNodeTypeParses()
    ensures RawValue(WhileStatementNodeType) == "WhileStatement" && ParseNodeType("WhileStatement") == Some(WhileStatementNodeType)
  {
  }

  lemma WithStatementNodeTypeParses()
    ensures RawValue(WithStatementNodeType) == "WithStatement" && ParseNodeType("WithStatement") == Some(WithStatementNodeType)
  {
  }

  lemma YieldExpressionNodeTypeParses()
    ensures RawValue(YieldExpressionNodeType) == "YieldExpression" && ParseNodeType("YieldExpression") == Some(YieldExpressionNodeType)
  {
  }

  /** No two node types share a tag. */
  lemma RawValueInjective(k1: NodeType, k2: NodeType)
    ensures RawValue(k1) == RawValue(k2) ==> k1 == k2
  {
    ParseRawValue(k1);
    ParseRawValue(k2);
  }
}
