/** The node-type enums of the `ESTree` structs: every struct declares a
    single-case `String` enum whose raw value is its tag. */
module ESTreeNodeTypes {
  import opened Json

  datatype NodeType =
    | IdentifierNodeType
    | LiteralNodeType
    | RegExpLiteralNodeType
    | ProgramNodeType
    | ExpressionStatementNodeType
    | DirectiveNodeType
    | BlockStatementNodeType
    | EmptyStatementNodeType
    | DebuggerStatementNodeType
    | WithStatementNodeType
    | ReturnStatementNodeType
    | LabeledStatementNodeType
    | BreakStatementNodeType
    | ContinueStatementNodeType
    | IfStatementNodeType
    | SwitchStatementNodeType
    | SwitchCaseNodeType
    | ThrowStatementNodeType
    | TryStatementNodeType
    | CatchClauseNodeType
    | WhileStatementNodeType
    | DoWhileStatementNodeType
    | ForStatementNodeType
    | ForInStatementNodeType
    | FunctionDeclarationNodeType
    | VariableDeclarationNodeType
    | VariableDeclaratorNodeType
    | ThisExpressionNodeType
    | ArrayExpressionNodeType
    | ObjectExpressionNodeType
    | PropertyNodeType
    | FunctionExpressionNodeType
    | UnaryExpressionNodeType
    | UpdateExpressionNodeType
    | BinaryExpressionNodeType
    | AssignmentExpressionNodeType
    | LogicalExpressionNodeType
    | MemberExpressionNodeType
    | ConditionalExpressionNodeType
    | CallExpressionNodeType
    | NewExpressionNodeType
    | SequenceExpressionNodeType

  /** The raw value of each case: the node's tag. */
  function Tag(k: NodeType): string {
    match k
    case IdentifierNodeType => "Identifier"
    case LiteralNodeType => "Literal"
    case RegExpLiteralNodeType => "RegExpLiteral"
    case ProgramNodeType => "Program"
    case ExpressionStatementNodeType => "ExpressionStatement"
    case DirectiveNodeType => "Directive"
    case BlockStatementNodeType => "BlockStatement"
    case EmptyStatementNodeType => "EmptyStatement"
    case DebuggerStatementNodeType => "DebuggerStatement"
    case WithStatementNodeType => "WithStatement"
    case ReturnStatementNodeType => "ReturnStatement"
    case LabeledStatementNodeType => "LabeledStatement"
    case BreakStatementNodeType => "BreakStatement"
    case ContinueStatementNodeType => "ContinueStatement"
    case IfStatementNodeType => "IfStatement"
    case SwitchStatementNodeType => "SwitchStatement"
    case SwitchCaseNodeType => "SwitchCase"
    case ThrowStatementNodeType => "ThrowStatement"
    case TryStatementNodeType => "TryStatement"
    case CatchClauseNodeType => "CatchClause"
    case WhileStatementNodeType => "WhileStatement"
    case DoWhileStatementNodeType => "DoWhileStatement"
    case ForStatementNodeType => "ForStatement"
    case ForInStatementNodeType => "ForInStatement"
    case FunctionDeclarationNodeType => "FunctionDeclaration"
    case VariableDeclarationNodeType => "VariableDeclaration"
    case VariableDeclaratorNodeType => "VariableDeclarator"
    case ThisExpressionNodeType => "ThisExpression"
    case ArrayExpressionNodeType => "ArrayExpression"
    case ObjectExpressionNodeType => "ObjectExpression"
    case PropertyNodeType => "Property"
    case FunctionExpressionNodeType => "FunctionExpression"
    case UnaryExpressionNodeType => "UnaryExpression"
    case UpdateExpressionNodeType => "UpdateExpression"
    case BinaryExpressionNodeType => "BinaryExpression"
    case AssignmentExpressionNodeType => "AssignmentExpression"
    case LogicalExpressionNodeType => "LogicalExpression"
    case MemberExpressionNodeType => "MemberExpression"
    case ConditionalExpressionNodeType => "ConditionalExpression"
    case CallExpressionNodeType => "CallExpression"
    case NewExpressionNodeType => "NewExpression"
    case SequenceExpressionNodeType => "SequenceExpression"
  }

  /** The one node type whose tag `t` could be, read from its length and a few
      of its characters. */
  function Candidate(t: string): Option<NodeType> {
    match |t|
    case 7 => (if t[6] == 'l' then Some(LiteralNodeType)
        else Some(ProgramNodeType))
    case 8 => Some(PropertyNodeType)
    case 9 => Some(DirectiveNodeType)
    case 10 => (if t[9] == 'e' then Some(SwitchCaseNodeType)
        else Some(IdentifierNodeType))
    case 11 => (if t[10] == 'e' then Some(CatchClauseNodeType)
        else Some(IfStatementNodeType))
    case 12 => (if t[2] == 'r' then Some(ForStatementNodeType)
        else Some(TryStatementNodeType))
    case 13 => (if t[12] == 'l' then Some(RegExpLiteralNodeType)
        else if t[12] == 'n' then Some(NewExpressionNodeType)
        else Some(WithStatementNodeType))
    case 14 => (if t[3] == 'I' then Some(ForInStatementNodeType)
        else if t[3] == 'a' then Some(BreakStatementNodeType)
        else if t[3] == 'c' then Some(BlockStatementNodeType)
        else if t[3] == 'l' then (if t[13] == 'n' then Some(CallExpressionNodeType)
          else Some(WhileStatementNodeType))
        else if t[3] == 'o' then Some(ThrowStatementNodeType)
        else if t[3] == 's' then Some(ThisExpressionNodeType)
        else Some(EmptyStatementNodeType))
    case 15 => (if t[3] == 'a' then Some(ArrayExpressionNodeType)
        else if t[3] == 'r' then Some(UnaryExpressionNodeType)
        else if t[3] == 't' then Some(SwitchStatementNodeType)
        else Some(ReturnStatementNodeType))
    case 16 => (if t[4] == 'c' then Some(ObjectExpressionNodeType)
        else if t[4] == 'e' then Some(MemberExpressionNodeType)
        else if t[4] == 'i' then Some(DoWhileStatementNodeType)
        else if t[4] == 'l' then Some(LabeledStatementNodeType)
        else if t[4] == 'r' then Some(BinaryExpressionNodeType)
        else Some(UpdateExpressionNodeType))
    case 17 => (if t[7] == 'E' then Some(LogicalExpressionNodeType)
        else if t[7] == 'e' then Some(ContinueStatementNodeType)
        else Some(DebuggerStatementNodeType))
    case 18 => (if t[6] == 'c' then Some(SequenceExpressionNodeType)
        else if t[6] == 'l' then Some(VariableDeclaratorNodeType)
        else Some(FunctionExpressionNodeType))
    case 19 => (if t[7] == 'e' then Some(VariableDeclarationNodeType)
        else if t[7] == 'i' then Some(ExpressionStatementNodeType)
        else Some(FunctionDeclarationNodeType))
    case 20 => Some(AssignmentExpressionNodeType)
    case 21 => Some(ConditionalExpressionNodeType)
    case _ => None
  }

  /** `NodeType(rawValue:)`: the node type whose tag is exactly `t`, if any. */
  function ParseNodeType(t: string): (r: Option<NodeType>)
    ensures r.Some? ==> Tag(r.value) == t
  {
    match Candidate(t)
    case Some(k) => if Tag(k) == t then Some(k) else None
    case None => None
  }

  /** Every tag parses back to its own node type. */
  lemma ParseTag(k: NodeType)
    ensures ParseNodeType(Tag(k)) == Some(k)
  {
    match k
    case IdentifierNodeType => IdentifierParses();
    case LiteralNodeType => LiteralParses();
    case RegExpLiteralNodeType => RegExpLiteralParses();
    case ProgramNodeType => ProgramParses();
    case ExpressionStatementNodeType => ExpressionStatementParses();
    case DirectiveNodeType => DirectiveParses();
    case BlockStatementNodeType => BlockStatementParses();
    case EmptyStatementNodeType => EmptyStatementParses();
    case DebuggerStatementNodeType => DebuggerStatementParses();
    case WithStatementNodeType => WithStatementParses();
    case ReturnStatementNodeType => ReturnStatementParses();
    case LabeledStatementNodeType => LabeledStatementParses();
    case BreakStatementNodeType => BreakStatementParses();
    case ContinueStatementNodeType => ContinueStatementParses();
    case IfStatementNodeType => IfStatementParses();
    case SwitchStatementNodeType => SwitchStatementParses();
    case SwitchCaseNodeType => SwitchCaseParses();
    case ThrowStatementNodeType => ThrowStatementParses();
    case TryStatementNodeType => TryStatementParses();
    case CatchClauseNodeType => CatchClauseParses();
    case WhileStatementNodeType => WhileStatementParses();
    case DoWhileStatementNodeType => DoWhileStatementParses();
    case ForStatementNodeType => ForStatementParses();
    case ForInStatementNodeType => ForInStatementParses();
    case FunctionDeclarationNodeType => FunctionDeclarationParses();
    case VariableDeclarationNodeType => VariableDeclarationParses();
    case VariableDeclaratorNodeType => VariableDeclaratorParses();
    case ThisExpressionNodeType => ThisExpressionParses();
    case ArrayExpressionNodeType => ArrayExpressionParses();
    case ObjectExpressionNodeType => ObjectExpressionParses();
    case PropertyNodeType => PropertyParses();
    case FunctionExpressionNodeType => FunctionExpressionParses();
    case UnaryExpressionNodeType => UnaryExpressionParses();
    case UpdateExpressionNodeType => UpdateExpressionParses();
    case BinaryExpressionNodeType => BinaryExpressionParses();
    case AssignmentExpressionNodeType => AssignmentExpressionParses();
    case LogicalExpressionNodeType => LogicalExpressionParses();
    case MemberExpressionNodeType => MemberExpressionParses();
    case ConditionalExpressionNodeType => ConditionalExpressionParses();
    case CallExpressionNodeType => CallExpressionParses();
    case NewExpressionNodeType => NewExpressionParses();
    case SequenceExpressionNodeType => SequenceExpressionParses();
  }

  // Table facts, one per node type, generated from the raw-value table. Each is
  // a single evaluation, proved without a body; `ParseTag` is their case split.

  lemma IdentifierParses()
    ensures ParseNodeType("Identifier") == Some(IdentifierNodeType)
  {
  }

  lemma LiteralParses()
    ensures ParseNodeType("Literal") == Some(LiteralNodeType)
  {
  }

  lemma RegExpLiteralParses()
    ensures ParseNodeType("RegExpLiteral") == Some(RegExpLiteralNodeType)
  {
  }

  lemma ProgramParses()
    ensures ParseNodeType("Program") == Some(ProgramNodeType)
  {
  }

  lemma ExpressionStatementParses()
    ensures ParseNodeType("ExpressionStatement") == Some(ExpressionStatementNodeType)
  {
  }

  lemma DirectiveParses()
    ensures ParseNodeType("Directive") == Some(DirectiveNodeType)
  {
  }

  lemma BlockStatementParses()
    ensures ParseNodeType("BlockStatement") == Some(BlockStatementNodeType)
  {
  }

  lemma EmptyStatementParses()
    ensures ParseNodeType("EmptyStatement") == Some(EmptyStatementNodeType)
  {
  }

  lemma DebuggerStatementParses()
    ensures ParseNodeType("DebuggerStatement") == Some(DebuggerStatementNodeType)
  {
  }

  lemma WithStatementParses()
    ensures ParseNodeType("WithStatement") == Some(WithStatementNodeType)
  {
  }

  lemma ReturnStatementParses()
    ensures ParseNodeType("ReturnStatement") == Some(ReturnStatementNodeType)
  {
  }

  lemma LabeledStatementParses()
    ensures ParseNodeType("LabeledStatement") == Some(LabeledStatementNodeType)
  {
  }

  lemma BreakStatementParses()
    ensures ParseNodeType("BreakStatement") == Some(BreakStatementNodeType)
  {
  }

  lemma ContinueStatementParses()
    ensures ParseNodeType("ContinueStatement") == Some(ContinueStatementNodeType)
  {
  }

  lemma IfStatementParses()
    ensures ParseNodeType("IfStatement") == Some(IfStatementNodeType)
  {
  }

  lemma SwitchStatementParses()
    ensures ParseNodeType("SwitchStatement") == Some(SwitchStatementNodeType)
  {
  }

  lemma SwitchCaseParses()
    ensures ParseNodeType("SwitchCase") == Some(SwitchCaseNodeType)
  {
  }

  lemma ThrowStatementParses()
    ensures ParseNodeType("ThrowStatement") == Some(ThrowStatementNodeType)
  {
  }

  lemma TryStatementParses()
    ensures ParseNodeType("TryStatement") == Some(TryStatementNodeType)
  {
  }

  lemma CatchClauseParses()
    ensures ParseNodeType("CatchClause") == Some(CatchClauseNodeType)
  {
  }

  lemma WhileStatementParses()
    ensures ParseNodeType("WhileStatement") == Some(WhileStatementNodeType)
  {
  }

  lemma DoWhileStatementParses()
    ensures ParseNodeType("DoWhileStatement") == Some(DoWhileStatementNodeType)
  {
  }

  lemma ForStatementParses()
    ensures ParseNodeType("ForStatement") == Some(ForStatementNodeType)
  {
  }

  lemma ForInStatementParses()
    ensures ParseNodeType("ForInStatement") == Some(ForInStatementNodeType)
  {
  }

  lemma FunctionDeclarationParses()
    ensures ParseNodeType("FunctionDeclaration") == Some(FunctionDeclarationNodeType)
  {
  }

  lemma VariableDeclarationParses()
    ensures ParseNodeType("VariableDeclaration") == Some(VariableDeclarationNodeType)
  {
  }

  lemma VariableDeclaratorParses()
    ensures ParseNodeType("VariableDeclarator") == Some(VariableDeclaratorNodeType)
  {
  }

  lemma ThisExpressionParses()
    ensures ParseNodeType("ThisExpression") == Some(ThisExpressionNodeType)
  {
  }

  lemma ArrayExpressionParses()
    ensures ParseNodeType("ArrayExpression") == Some(ArrayExpressionNodeType)
  {
  }

  lemma ObjectExpressionParses()
    ensures ParseNodeType("ObjectExpression") == Some(ObjectExpressionNodeType)
  {
  }

  lemma PropertyParses()
    ensures ParseNodeType("Property") == Some(PropertyNodeType)
  {
  }

  lemma FunctionExpressionParses()
    ensures ParseNodeType("FunctionExpression") == Some(FunctionExpressionNodeType)
  {
  }

  lemma UnaryExpressionParses()
    ensures ParseNodeType("UnaryExpression") == Some(UnaryExpressionNodeType)
  {
  }

  lemma UpdateExpressionParses()
    ensures ParseNodeType("UpdateExpression") == Some(UpdateExpressionNodeType)
  {
  }

  lemma BinaryExpressionParses()
    ensures ParseNodeType("BinaryExpression") == Some(BinaryExpressionNodeType)
  {
  }

  lemma AssignmentExpressionParses()
    ensures ParseNodeType("AssignmentExpression") == Some(AssignmentExpressionNodeType)
  {
  }

  lemma LogicalExpressionParses()
    ensures ParseNodeType("LogicalExpression") == Some(LogicalExpressionNodeType)
  {
  }

  lemma MemberExpressionParses()
    ensures ParseNodeType("MemberExpression") == Some(MemberExpressionNodeType)
  {
  }

  lemma ConditionalExpressionParses()
    ensures ParseNodeType("ConditionalExpression") == Some(ConditionalExpressionNodeType)
  {
  }

  lemma CallExpressionParses()
    ensures ParseNodeType("CallExpression") == Some(CallExpressionNodeType)
  {
  }

  lemma NewExpressionParses()
    ensures ParseNodeType("NewExpression") == Some(NewExpressionNodeType)
  {
  }

  lemma SequenceExpressionParses()
    ensures ParseNodeType("SequenceExpression") == Some(SequenceExpressionNodeType)
  {
  }

  /** No two node types share a tag. */
  lemma TagInjective(k1: NodeType, k2: NodeType)
    ensures Tag(k1) == Tag(k2) ==> k1 == k2
  {
    ParseTag(k1);
    ParseTag(k2);
  }
}
