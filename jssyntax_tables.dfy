/** The syntax tables meet the conditions of the generic codec laws: unions
    nest finitely, and keys, tags and union alternatives are unambiguous. */
module JSSyntaxTables {
  import opened Json
  import opened Codable
  import opened CodableLaws
  import opened NodeTypes
  import opened FieldKeys
  import opened JSSyntax

  /** The `i`-th alternative of union `u` is ranked below the union, shaped so
      that a `OneOf` can tell it from the others, and never a `Program` struct. */
  predicate AltOk(u: UnionName, i: nat)
    requires i < |AltsOf(u)|
  {
    Rank(Syntax, AltsOf(u)[i]) <= LevelOf(u) && AltShape(Syntax, AltsOf(u)[i]) &&
    AltsOf(u)[i] != StructType(Script) && AltsOf(u)[i] != StructType(Module)
  }

  lemma AltsOk(u: UnionName, i: nat)
    requires i < |AltsOf(u)|
    ensures AltOk(u, i)
  {
    match u
    case StatementListItem => StatementListItemOk(i);
    case ModuleItem => ModuleItemOk(i);
    case ArgumentListElement => ArgumentListElementOk(i);
    case ArrayExpressionElement => ArrayExpressionElementOk(i);
    case ArrayPatternElement =>
      if i < 3 {
        ArrayPatternElementOk1(i);
      } else {
        ArrayPatternElementOk2(i);
      }
    case BindingPattern => BindingPatternOk(i);
    case Declaration =>
      if i < 3 {
        DeclarationOk1(i);
      } else {
        DeclarationOk2(i);
      }
    case ExportableDefaultDeclaration =>
      if i < 3 {
        ExportableDefaultDeclarationOk1(i);
      } else {
        ExportableDefaultDeclarationOk2(i);
      }
    case ExportableNamedDeclaration =>
      if i < 3 {
        ExportableNamedDeclarationOk1(i);
      } else {
        ExportableNamedDeclarationOk2(i);
      }
    case ExportDeclaration => ExportDeclarationOk(i);
    case Expression =>
      if i < 3 {
        ExpressionOk1(i);
      } else if i < 6 {
        ExpressionOk2(i);
      } else if i < 9 {
        ExpressionOk3(i);
      } else if i < 12 {
        ExpressionOk4(i);
      } else if i < 15 {
        ExpressionOk5(i);
      } else if i < 18 {
        ExpressionOk6(i);
      } else if i < 21 {
        ExpressionOk7(i);
      } else {
        ExpressionOk8(i);
      }
    case FunctionParameter => FunctionParameterOk(i);
    case ImportDeclarationSpecifier => ImportDeclarationSpecifierOk(i);
    case ObjectExpressionProperty => ObjectExpressionPropertyOk(i);
    case ObjectPatternProperty => ObjectPatternPropertyOk(i);
    case Statement =>
      if i < 3 {
        StatementOk1(i);
      } else if i < 6 {
        StatementOk2(i);
      } else if i < 9 {
        StatementOk3(i);
      } else if i < 12 {
        StatementOk4(i);
      } else if i < 15 {
        StatementOk5(i);
      } else if i < 18 {
        StatementOk6(i);
      } else {
        StatementOk7(i);
      }
    case PropertyKey => PropertyKeyOk(i);
    case PropertyValue =>
      if i < 3 {
        PropertyValueOk1(i);
      } else {
        PropertyValueOk2(i);
      }
    case ArrowBody => ArrowBodyOk(i);
    case Callee => CalleeOk(i);
    case BindingTarget => BindingTargetOk(i);
    case MethodValue => MethodValueOk(i);
    case LiteralValue =>
      if i < 3 {
        LiteralValueOk1(i);
      } else {
        LiteralValueOk2(i);
      }
  }

  lemma StatementListItemOk(i: nat)
    requires i < 2
    ensures AltOk(StatementListItem, i)
  {
  }

  lemma ModuleItemOk(i: nat)
    requires i < 3
    ensures AltOk(ModuleItem, i)
  {
  }

  lemma ArgumentListElementOk(i: nat)
    requires i < 2
    ensures AltOk(ArgumentListElement, i)
  {
  }

  lemma ArrayExpressionElementOk(i: nat)
    requires i < 3
    ensures AltOk(ArrayExpressionElement, i)
  {
  }

  lemma ArrayPatternElementOk1(i: nat)
    requires i < 3
    ensures AltOk(ArrayPatternElement, i)
  {
  }

  lemma ArrayPatternElementOk2(i: nat)
    requires 3 <= i < 5
    ensures AltOk(ArrayPatternElement, i)
  {
  }

  lemma BindingPatternOk(i: nat)
    requires i < 2
    ensures AltOk(BindingPattern, i)
  {
  }

  lemma DeclarationOk1(i: nat)
    requires i < 3
    ensures AltOk(Declaration, i)
  {
  }

  lemma DeclarationOk2(i: nat)
    requires 3 <= i < 6
    ensures AltOk(Declaration, i)
  {
  }

  lemma ExportableDefaultDeclarationOk1(i: nat)
    requires i < 3
    ensures AltOk(ExportableDefaultDeclaration, i)
  {
  }

  lemma ExportableDefaultDeclarationOk2(i: nat)
    requires 3 <= i < 5
    ensures AltOk(ExportableDefaultDeclaration, i)
  {
  }

  lemma ExportableNamedDeclarationOk1(i: nat)
    requires i < 3
    ensures AltOk(ExportableNamedDeclaration, i)
  {
  }

  lemma ExportableNamedDeclarationOk2(i: nat)
    requires 3 <= i < 4
    ensures AltOk(ExportableNamedDeclaration, i)
  {
  }

  lemma ExportDeclarationOk(i: nat)
    requires i < 3
    ensures AltOk(ExportDeclaration, i)
  {
  }

  lemma ExpressionOk1(i: nat)
    requires i < 3
    ensures AltOk(Expression, i)
  {
  }

  lemma ExpressionOk2(i: nat)
    requires 3 <= i < 6
    ensures AltOk(Expression, i)
  {
  }

  lemma ExpressionOk3(i: nat)
    requires 6 <= i < 9
    ensures AltOk(Expression, i)
  {
  }

  lemma ExpressionOk4(i: nat)
    requires 9 <= i < 12
    ensures AltOk(Expression, i)
  {
  }

  lemma ExpressionOk5(i: nat)
    requires 12 <= i < 15
    ensures AltOk(Expression, i)
  {
  }

  lemma ExpressionOk6(i: nat)
    requires 15 <= i < 18
    ensures AltOk(Expression, i)
  {
  }

  lemma ExpressionOk7(i: nat)
    requires 18 <= i < 21
    ensures AltOk(Expression, i)
  {
  }

  lemma ExpressionOk8(i: nat)
    requires 21 <= i < 24
    ensures AltOk(Expression, i)
  {
  }

  lemma FunctionParameterOk(i: nat)
    requires i < 3
    ensures AltOk(FunctionParameter, i)
  {
  }

  lemma ImportDeclarationSpecifierOk(i: nat)
    requires i < 3
    ensures AltOk(ImportDeclarationSpecifier, i)
  {
  }

  lemma ObjectExpressionPropertyOk(i: nat)
    requires i < 2
    ensures AltOk(ObjectExpressionProperty, i)
  {
  }

  lemma ObjectPatternPropertyOk(i: nat)
    requires i < 2
    ensures AltOk(ObjectPatternProperty, i)
  {
  }

  lemma StatementOk1(i: nat)
    requires i < 3
    ensures AltOk(Statement, i)
  {
  }

  lemma StatementOk2(i: nat)
    requires 3 <= i < 6
    ensures AltOk(Statement, i)
  {
  }

  lemma StatementOk3(i: nat)
    requires 6 <= i < 9
    ensures AltOk(Statement, i)
  {
  }

  lemma StatementOk4(i: nat)
    requires 9 <= i < 12
    ensures AltOk(Statement, i)
  {
  }

  lemma StatementOk5(i: nat)
    requires 12 <= i < 15
    ensures AltOk(Statement, i)
  {
  }

  lemma StatementOk6(i: nat)
    requires 15 <= i < 18
    ensures AltOk(Statement, i)
  {
  }

  lemma StatementOk7(i: nat)
    requires 18 <= i < 20
    ensures AltOk(Statement, i)
  {
  }

  lemma PropertyKeyOk(i: nat)
    requires i < 2
    ensures AltOk(PropertyKey, i)
  {
  }

  lemma PropertyValueOk1(i: nat)
    requires i < 3
    ensures AltOk(PropertyValue, i)
  {
  }

  lemma PropertyValueOk2(i: nat)
    requires 3 <= i < 5
    ensures AltOk(PropertyValue, i)
  {
  }

  lemma ArrowBodyOk(i: nat)
    requires i < 2
    ensures AltOk(ArrowBody, i)
  {
  }

  lemma CalleeOk(i: nat)
    requires i < 2
    ensures AltOk(Callee, i)
  {
  }

  lemma BindingTargetOk(i: nat)
    requires i < 2
    ensures AltOk(BindingTarget, i)
  {
  }

  lemma MethodValueOk(i: nat)
    requires i < 3
    ensures AltOk(MethodValue, i)
  {
  }

  lemma LiteralValueOk1(i: nat)
    requires i < 3
    ensures AltOk(LiteralValue, i)
  {
  }

  lemma LiteralValueOk2(i: nat)
    requires 3 <= i < 4
    ensures AltOk(LiteralValue, i)
  {
  }

  /** Unions nest finitely and every alternative is a tagged node, a union or a
      JSON scalar. */
  lemma SyntaxWellFormed()
    ensures WellFormed(Syntax)
  {
    forall u, i | 0 <= i < |Syntax.alts(u)|
      ensures Rank(Syntax, Syntax.alts(u)[i]) <= Syntax.level(u) && AltShape(Syntax, Syntax.alts(u)[i])
    {
      AltsOk(u, i);
    }
  }

  /** A struct declares each property once. */
  predicate DistinctFields(s: StructName) {
    forall a, b | 0 <= a < b < |FieldsOf(s)| :: FieldsOf(s)[a].key != FieldsOf(s)[b].key
  }

  lemma FieldsDistinct(s: StructName)
    ensures DistinctFields(s)
  {
    match s
    case Script => ScriptFieldsDistinct();
    case Module => ModuleFieldsDistinct();
    case ArrayExpression => ArrayExpressionFieldsDistinct();
    case ArrayPattern => ArrayPatternFieldsDistinct();
    case ArrowFunctionExpression => ArrowFunctionExpressionFieldsDistinct();
    case AssignmentExpression => AssignmentExpressionFieldsDistinct();
    case AssignmentPattern => AssignmentPatternFieldsDistinct();
    case AsyncArrowFunctionExpression => AsyncArrowFunctionExpressionFieldsDistinct();
    case AsyncFunctionDeclaration => AsyncFunctionDeclarationFieldsDistinct();
    case AsyncFunctionExpression => AsyncFunctionExpressionFieldsDistinct();
    case AwaitExpression => AwaitExpressionFieldsDistinct();
    case BinaryExpression => BinaryExpressionFieldsDistinct();
    case BlockStatement => BlockStatementFieldsDistinct();
    case BreakStatement => BreakStatementFieldsDistinct();
    case CallExpression => CallExpressionFieldsDistinct();
    case CatchClause => CatchClauseFieldsDistinct();
    case ClassBody => ClassBodyFieldsDistinct();
    case ClassDeclaration => ClassDeclarationFieldsDistinct();
    case ClassExpression => ClassExpressionFieldsDistinct();
    case ComputedMemberExpression => ComputedMemberExpressionFieldsDistinct();
    case ConditionalExpression => ConditionalExpressionFieldsDistinct();
    case ContinueStatement => ContinueStatementFieldsDistinct();
    case DebuggerStatement => DebuggerStatementFieldsDistinct();
    case Directive => DirectiveFieldsDistinct();
    case DoWhileStatement => DoWhileStatementFieldsDistinct();
    case EmptyStatement => EmptyStatementFieldsDistinct();
    case ExportAllDeclaration => ExportAllDeclarationFieldsDistinct();
    case ExportDefaultDeclaration => ExportDefaultDeclarationFieldsDistinct();
    case ExportNamedDeclaration => ExportNamedDeclarationFieldsDistinct();
    case ExportSpecifier => ExportSpecifierFieldsDistinct();
    case ExpressionStatement => ExpressionStatementFieldsDistinct();
    case ForInStatement => ForInStatementFieldsDistinct();
    case ForOfStatement => ForOfStatementFieldsDistinct();
    case ForStatement => ForStatementFieldsDistinct();
    case FunctionDeclaration => FunctionDeclarationFieldsDistinct();
    case FunctionExpression => FunctionExpressionFieldsDistinct();
    case Identifier => IdentifierFieldsDistinct();
    case IfStatement => IfStatementFieldsDistinct();
    case Import => ImportFieldsDistinct();
    case ImportDeclaration => ImportDeclarationFieldsDistinct();
    case ImportDefaultSpecifier => ImportDefaultSpecifierFieldsDistinct();
    case ImportNamespaceSpecifier => ImportNamespaceSpecifierFieldsDistinct();
    case ImportSpecifier => ImportSpecifierFieldsDistinct();
    case LabeledStatement => LabeledStatementFieldsDistinct();
    case Literal => LiteralFieldsDistinct();
    case MetaProperty => MetaPropertyFieldsDistinct();
    case MethodDefinition => MethodDefinitionFieldsDistinct();
    case NewExpression => NewExpressionFieldsDistinct();
    case ObjectExpression => ObjectExpressionFieldsDistinct();
    case ObjectPattern => ObjectPatternFieldsDistinct();
    case Property => PropertyFieldsDistinct();
    case RegexLiteral => RegexLiteralFieldsDistinct();
    case RestElement => RestElementFieldsDistinct();
    case ReturnStatement => ReturnStatementFieldsDistinct();
    case SequenceExpression => SequenceExpressionFieldsDistinct();
    case SpreadElement => SpreadElementFieldsDistinct();
    case StaticMemberExpression => StaticMemberExpressionFieldsDistinct();
    case Super => SuperFieldsDistinct();
    case SwitchCase => SwitchCaseFieldsDistinct();
    case SwitchStatement => SwitchStatementFieldsDistinct();
    case TaggedTemplateExpression => TaggedTemplateExpressionFieldsDistinct();
    case TemplateElement => TemplateElementFieldsDistinct();
    case TemplateLiteral => TemplateLiteralFieldsDistinct();
    case ThisExpression => ThisExpressionFieldsDistinct();
    case ThrowStatement => ThrowStatementFieldsDistinct();
    case TryStatement => TryStatementFieldsDistinct();
    case UnaryExpression => UnaryExpressionFieldsDistinct();
    case UpdateExpression => UpdateExpressionFieldsDistinct();
    case VariableDeclaration => VariableDeclarationFieldsDistinct();
    case VariableDeclarator => VariableDeclaratorFieldsDistinct();
    case WhileStatement => WhileStatementFieldsDistinct();
    case WithStatement => WithStatementFieldsDistinct();
    case YieldExpression => YieldExpressionFieldsDistinct();
    case TemplateElementValue => TemplateElementValueFieldsDistinct();
    case Regex => RegexFieldsDistinct();
  }

  // Table facts, one per struct, generated from the field table. Each is a
  // single evaluation, proved without a body; `FieldsDistinct` is their case split.

  lemma ScriptFieldsDistinct()
    ensures DistinctFields(Script)
  {
  }

  lemma ModuleFieldsDistinct()
    ensures DistinctFields(Module)
  {
  }

  lemma ArrayExpressionFieldsDistinct()
    ensures DistinctFields(ArrayExpression)
  {
  }

  lemma ArrayPatternFieldsDistinct()
    ensures DistinctFields(ArrayPattern)
  {
  }

  lemma ArrowFunctionExpressionFieldsDistinct()
    ensures DistinctFields(ArrowFunctionExpression)
  {
  }

  lemma AssignmentExpressionFieldsDistinct()
    ensures DistinctFields(AssignmentExpression)
  {
  }

  lemma AssignmentPatternFieldsDistinct()
    ensures DistinctFields(AssignmentPattern)
  {
  }

  lemma AsyncArrowFunctionExpressionFieldsDistinct()
    ensures DistinctFields(AsyncArrowFunctionExpression)
  {
  }

  lemma AsyncFunctionDeclarationFieldsDistinct()
    ensures DistinctFields(AsyncFunctionDeclaration)
  {
  }

  lemma AsyncFunctionExpressionFieldsDistinct()
    ensures DistinctFields(AsyncFunctionExpression)
  {
  }

  lemma AwaitExpressionFieldsDistinct()
    ensures DistinctFields(AwaitExpression)
  {
  }

  lemma BinaryExpressionFieldsDistinct()
    ensures DistinctFields(BinaryExpression)
  {
  }

  lemma BlockStatementFieldsDistinct()
    ensures DistinctFields(BlockStatement)
  {
  }

  lemma BreakStatementFieldsDistinct()
    ensures DistinctFields(BreakStatement)
  {
  }

  lemma CallExpressionFieldsDistinct()
    ensures DistinctFields(CallExpression)
  {
  }

  lemma CatchClauseFieldsDistinct()
    ensures DistinctFields(CatchClause)
  {
  }

  lemma ClassBodyFieldsDistinct()
    ensures DistinctFields(ClassBody)
  {
  }

  lemma ClassDeclarationFieldsDistinct()
    ensures DistinctFields(ClassDeclaration)
  {
  }

  lemma ClassExpressionFieldsDistinct()
    ensures DistinctFields(ClassExpression)
  {
  }

  lemma ComputedMemberExpressionFieldsDistinct()
    ensures DistinctFields(ComputedMemberExpression)
  {
  }

  lemma ConditionalExpressionFieldsDistinct()
    ensures DistinctFields(ConditionalExpression)
  {
  }

  lemma ContinueStatementFieldsDistinct()
    ensures DistinctFields(ContinueStatement)
  {
  }

  lemma DebuggerStatementFieldsDistinct()
    ensures DistinctFields(DebuggerStatement)
  {
  }

  lemma DirectiveFieldsDistinct()
    ensures DistinctFields(Directive)
  {
  }

  lemma DoWhileStatementFieldsDistinct()
    ensures DistinctFields(DoWhileStatement)
  {
  }

  lemma EmptyStatementFieldsDistinct()
    ensures DistinctFields(EmptyStatement)
  {
  }

  lemma ExportAllDeclarationFieldsDistinct()
    ensures DistinctFields(ExportAllDeclaration)
  {
  }

  lemma ExportDefaultDeclarationFieldsDistinct()
    ensures DistinctFields(ExportDefaultDeclaration)
  {
  }

  lemma ExportNamedDeclarationFieldsDistinct()
    ensures DistinctFields(ExportNamedDeclaration)
  {
  }

  lemma ExportSpecifierFieldsDistinct()
    ensures DistinctFields(ExportSpecifier)
  {
  }

  lemma ExpressionStatementFieldsDistinct()
    ensures DistinctFields(ExpressionStatement)
  {
  }

  lemma ForInStatementFieldsDistinct()
    ensures DistinctFields(ForInStatement)
  {
  }

  lemma ForOfStatementFieldsDistinct()
    ensures DistinctFields(ForOfStatement)
  {
  }

  lemma ForStatementFieldsDistinct()
    ensures DistinctFields(ForStatement)
  {
  }

  lemma FunctionDeclarationFieldsDistinct()
    ensures DistinctFields(FunctionDeclaration)
  {
  }

  lemma FunctionExpressionFieldsDistinct()
    ensures DistinctFields(FunctionExpression)
  {
  }

  lemma IdentifierFieldsDistinct()
    ensures DistinctFields(Identifier)
  {
  }

  lemma IfStatementFieldsDistinct()
    ensures DistinctFields(IfStatement)
  {
  }

  lemma ImportFieldsDistinct()
    ensures DistinctFields(Import)
  {
  }

  lemma ImportDeclarationFieldsDistinct()
    ensures DistinctFields(ImportDeclaration)
  {
  }

  lemma ImportDefaultSpecifierFieldsDistinct()
    ensures DistinctFields(ImportDefaultSpecifier)
  {
  }

  lemma ImportNamespaceSpecifierFieldsDistinct()
    ensures DistinctFields(ImportNamespaceSpecifier)
  {
  }

  lemma ImportSpecifierFieldsDistinct()
    ensures DistinctFields(ImportSpecifier)
  {
  }

  lemma LabeledStatementFieldsDistinct()
    ensures DistinctFields(LabeledStatement)
  {
  }

  lemma LiteralFieldsDistinct()
    ensures DistinctFields(Literal)
  {
  }

  lemma MetaPropertyFieldsDistinct()
    ensures DistinctFields(MetaProperty)
  {
  }

  lemma MethodDefinitionFieldsDistinct()
    ensures DistinctFields(MethodDefinition)
  {
  }

  lemma NewExpressionFieldsDistinct()
    ensures DistinctFields(NewExpression)
  {
  }

  lemma ObjectExpressionFieldsDistinct()
    ensures DistinctFields(ObjectExpression)
  {
  }

  lemma ObjectPatternFieldsDistinct()
    ensures DistinctFields(ObjectPattern)
  {
  }

  lemma PropertyFieldsDistinct()
    ensures DistinctFields(Property)
  {
  }

  lemma RegexLiteralFieldsDistinct()
    ensures DistinctFields(RegexLiteral)
  {
  }

  lemma RestElementFieldsDistinct()
    ensures DistinctFields(RestElement)
  {
  }

  lemma ReturnStatementFieldsDistinct()
    ensures DistinctFields(ReturnStatement)
  {
  }

  lemma SequenceExpressionFieldsDistinct()
    ensures DistinctFields(SequenceExpression)
  {
  }

  lemma SpreadElementFieldsDistinct()
    ensures DistinctFields(SpreadElement)
  {
  }

  lemma StaticMemberExpressionFieldsDistinct()
    ensures DistinctFields(StaticMemberExpression)
  {
  }

  lemma SuperFieldsDistinct()
    ensures DistinctFields(Super)
  {
  }

  lemma SwitchCaseFieldsDistinct()
    ensures DistinctFields(SwitchCase)
  {
  }

  lemma SwitchStatementFieldsDistinct()
    ensures DistinctFields(SwitchStatement)
  {
  }

  lemma TaggedTemplateExpressionFieldsDistinct()
    ensures DistinctFields(TaggedTemplateExpression)
  {
  }

  lemma TemplateElementFieldsDistinct()
    ensures DistinctFields(TemplateElement)
  {
  }

  lemma TemplateLiteralFieldsDistinct()
    ensures DistinctFields(TemplateLiteral)
  {
  }

  lemma ThisExpressionFieldsDistinct()
    ensures DistinctFields(ThisExpression)
  {
  }

  lemma ThrowStatementFieldsDistinct()
    ensures DistinctFields(ThrowStatement)
  {
  }

  lemma TryStatementFieldsDistinct()
    ensures DistinctFields(TryStatement)
  {
  }

  lemma UnaryExpressionFieldsDistinct()
    ensures DistinctFields(UnaryExpression)
  {
  }

  lemma UpdateExpressionFieldsDistinct()
    ensures DistinctFields(UpdateExpression)
  {
  }

  lemma VariableDeclarationFieldsDistinct()
    ensures DistinctFields(VariableDeclaration)
  {
  }

  lemma VariableDeclaratorFieldsDistinct()
    ensures DistinctFields(VariableDeclarator)
  {
  }

  lemma WhileStatementFieldsDistinct()
    ensures DistinctFields(WhileStatement)
  {
  }

  lemma WithStatementFieldsDistinct()
    ensures DistinctFields(WithStatement)
  {
  }

  lemma YieldExpressionFieldsDistinct()
    ensures DistinctFields(YieldExpression)
  {
  }

  lemma TemplateElementValueFieldsDistinct()
    ensures DistinctFields(TemplateElementValue)
  {
  }

  lemma RegexFieldsDistinct()
    ensures DistinctFields(Regex)
  {
  }

  /** Each struct owns its node type, but for `Module`, which shares `Program`
      with `Script`. */
  lemma OwnsKind(s: StructName)
    requires KindOf(s).Some? && s != Module
    ensures StructOfKind(KindOf(s).value) == s
  {
    OwnsKindPart0(s);
    OwnsKindPart1(s);
    OwnsKindPart2(s);
    OwnsKindPart3(s);
    OwnsKindPart4(s);
  }

  lemma OwnsKindPart0(s: StructName)
    ensures (s.Script? || s.ArrayExpression? || s.ArrayPattern? || s.ArrowFunctionExpression? || s.AssignmentExpression? || s.AssignmentPattern? || s.AsyncArrowFunctionExpression? || s.AsyncFunctionDeclaration? || s.AsyncFunctionExpression? || s.AwaitExpression? || s.BinaryExpression? || s.BlockStatement? || s.BreakStatement? || s.CallExpression? || s.CatchClause?) ==> StructOfKind(KindOf(s).value) == s
  {
    if s.Script? {
      ScriptOwnsKind();
    } else if s.ArrayExpression? {
      ArrayExpressionOwnsKind();
    } else if s.ArrayPattern? {
      ArrayPatternOwnsKind();
    } else if s.ArrowFunctionExpression? {
      ArrowFunctionExpressionOwnsKind();
    } else if s.AssignmentExpression? {
      AssignmentExpressionOwnsKind();
    } else if s.AssignmentPattern? {
      AssignmentPatternOwnsKind();
    } else if s.AsyncArrowFunctionExpression? {
      AsyncArrowFunctionExpressionOwnsKind();
    } else if s.AsyncFunctionDeclaration? {
      AsyncFunctionDeclarationOwnsKind();
    } else if s.AsyncFunctionExpression? {
      AsyncFunctionExpressionOwnsKind();
    } else if s.AwaitExpression? {
      AwaitExpressionOwnsKind();
    } else if s.BinaryExpression? {
      BinaryExpressionOwnsKind();
    } else if s.BlockStatement? {
      BlockStatementOwnsKind();
    } else if s.BreakStatement? {
      BreakStatementOwnsKind();
    } else if s.CallExpression? {
      CallExpressionOwnsKind();
    } else if s.CatchClause? {
      CatchClauseOwnsKind();
    }
  }

  lemma OwnsKindPart1(s: StructName)
    ensures (s.ClassBody? || s.ClassDeclaration? || s.ClassExpression? || s.ComputedMemberExpression? || s.ConditionalExpression? || s.ContinueStatement? || s.DebuggerStatement? || s.Directive? || s.DoWhileStatement? || s.EmptyStatement? || s.ExportAllDeclaration? || s.ExportDefaultDeclaration? || s.ExportNamedDeclaration? || s.ExportSpecifier? || s.ExpressionStatement?) ==> StructOfKind(KindOf(s).value) == s
  {
    if s.ClassBody? {
      ClassBodyOwnsKind();
    } else if s.ClassDeclaration? {
      ClassDeclarationOwnsKind();
    } else if s.ClassExpression? {
      ClassExpressionOwnsKind();
    } else if s.ComputedMemberExpression? {
      ComputedMemberExpressionOwnsKind();
    } else if s.ConditionalExpression? {
      ConditionalExpressionOwnsKind();
    } else if s.ContinueStatement? {
      ContinueStatementOwnsKind();
    } else if s.DebuggerStatement? {
      DebuggerStatementOwnsKind();
    } else if s.Directive? {
      DirectiveOwnsKind();
    } else if s.DoWhileStatement? {
      DoWhileStatementOwnsKind();
    } else if s.EmptyStatement? {
      EmptyStatementOwnsKind();
    } else if s.ExportAllDeclaration? {
      ExportAllDeclarationOwnsKind();
    } else if s.ExportDefaultDeclaration? {
      ExportDefaultDeclarationOwnsKind();
    } else if s.ExportNamedDeclaration? {
      ExportNamedDeclarationOwnsKind();
    } else if s.ExportSpecifier? {
      ExportSpecifierOwnsKind();
    } else if s.ExpressionStatement? {
      ExpressionStatementOwnsKind();
    }
  }

  lemma OwnsKindPart2(s: StructName)
    ensures (s.ForInStatement? || s.ForOfStatement? || s.ForStatement? || s.FunctionDeclaration? || s.FunctionExpression? || s.Identifier? || s.IfStatement? || s.Import? || s.ImportDeclaration? || s.ImportDefaultSpecifier? || s.ImportNamespaceSpecifier? || s.ImportSpecifier? || s.LabeledStatement? || s.Literal? || s.MetaProperty?) ==> StructOfKind(KindOf(s).value) == s
  {
    if s.ForInStatement? {
      ForInStatementOwnsKind();
    } else if s.ForOfStatement? {
      ForOfStatementOwnsKind();
    } else if s.ForStatement? {
      ForStatementOwnsKind();
    } else if s.FunctionDeclaration? {
      FunctionDeclarationOwnsKind();
    } else if s.FunctionExpression? {
      FunctionExpressionOwnsKind();
    } else if s.Identifier? {
      IdentifierOwnsKind();
    } else if s.IfStatement? {
      IfStatementOwnsKind();
    } else if s.Import? {
      ImportOwnsKind();
    } else if s.ImportDeclaration? {
      ImportDeclarationOwnsKind();
    } else if s.ImportDefaultSpecifier? {
      ImportDefaultSpecifierOwnsKind();
    } else if s.ImportNamespaceSpecifier? {
      ImportNamespaceSpecifierOwnsKind();
    } else if s.ImportSpecifier? {
      ImportSpecifierOwnsKind();
    } else if s.LabeledStatement? {
      LabeledStatementOwnsKind();
    } else if s.Literal? {
      LiteralOwnsKind();
    } else if s.MetaProperty? {
      MetaPropertyOwnsKind();
    }
  }

  lemma OwnsKindPart3(s: StructName)
    ensures (s.MethodDefinition? || s.NewExpression? || s.ObjectExpression? || s.ObjectPattern? || s.Property? || s.RegexLiteral? || s.RestElement? || s.ReturnStatement? || s.SequenceExpression? || s.SpreadElement? || s.StaticMemberExpression? || s.Super? || s.SwitchCase? || s.SwitchStatement? || s.TaggedTemplateExpression?) ==> StructOfKind(KindOf(s).value) == s
  {
    if s.MethodDefinition? {
      MethodDefinitionOwnsKind();
    } else if s.NewExpression? {
      NewExpressionOwnsKind();
    } else if s.ObjectExpression? {
      ObjectExpressionOwnsKind();
    } else if s.ObjectPattern? {
      ObjectPatternOwnsKind();
    } else if s.Property? {
      PropertyOwnsKind();
    } else if s.RegexLiteral? {
      RegexLiteralOwnsKind();
    } else if s.RestElement? {
      RestElementOwnsKind();
    } else if s.ReturnStatement? {
      ReturnStatementOwnsKind();
    } else if s.SequenceExpression? {
      SequenceExpressionOwnsKind();
    } else if s.SpreadElement? {
      SpreadElementOwnsKind();
    } else if s.StaticMemberExpression? {
      StaticMemberExpressionOwnsKind();
    } else if s.Super? {
      SuperOwnsKind();
    } else if s.SwitchCase? {
      SwitchCaseOwnsKind();
    } else if s.SwitchStatement? {
      SwitchStatementOwnsKind();
    } else if s.TaggedTemplateExpression? {
      TaggedTemplateExpressionOwnsKind();
    }
  }

  lemma OwnsKindPart4(s: StructName)
    ensures (s.TemplateElement? || s.TemplateLiteral? || s.ThisExpression? || s.ThrowStatement? || s.TryStatement? || s.UnaryExpression? || s.UpdateExpression? || s.VariableDeclaration? || s.VariableDeclarator? || s.WhileStatement? || s.WithStatement? || s.YieldExpression?) ==> StructOfKind(KindOf(s).value) == s
  {
    if s.TemplateElement? {
      TemplateElementOwnsKind();
    } else if s.TemplateLiteral? {
      TemplateLiteralOwnsKind();
    } else if s.ThisExpression? {
      ThisExpressionOwnsKind();
    } else if s.ThrowStatement? {
      ThrowStatementOwnsKind();
    } else if s.TryStatement? {
      TryStatementOwnsKind();
    } else if s.UnaryExpression? {
      UnaryExpressionOwnsKind();
    } else if s.UpdateExpression? {
      UpdateExpressionOwnsKind();
    } else if s.VariableDeclaration? {
      VariableDeclarationOwnsKind();
    } else if s.VariableDeclarator? {
      VariableDeclaratorOwnsKind();
    } else if s.WhileStatement? {
      WhileStatementOwnsKind();
    } else if s.WithStatement? {
      WithStatementOwnsKind();
    } else if s.YieldExpression? {
      YieldExpressionOwnsKind();
    }
  }

  // Table facts, one per struct, generated from the struct table. Each is a
  // single evaluation, proved without a body; `OwnsKind` is their case split.

  lemma ScriptOwnsKind()
    ensures StructOfKind(KindOf(Script).value) == Script
  {
  }

  lemma ArrayExpressionOwnsKind()
    ensures StructOfKind(KindOf(ArrayExpression).value) == ArrayExpression
  {
  }

  lemma ArrayPatternOwnsKind()
    ensures StructOfKind(KindOf(ArrayPattern).value) == ArrayPattern
  {
  }

  lemma ArrowFunctionExpressionOwnsKind()
    ensures StructOfKind(KindOf(ArrowFunctionExpression).value) == ArrowFunctionExpression
  {
  }

  lemma AssignmentExpressionOwnsKind()
    ensures StructOfKind(KindOf(AssignmentExpression).value) == AssignmentExpression
  {
  }

  lemma AssignmentPatternOwnsKind()
    ensures StructOfKind(KindOf(AssignmentPattern).value) == AssignmentPattern
  {
  }

  lemma AsyncArrowFunctionExpressionOwnsKind()
    ensures StructOfKind(KindOf(AsyncArrowFunctionExpression).value) == AsyncArrowFunctionExpression
  {
  }

  lemma AsyncFunctionDeclarationOwnsKind()
    ensures StructOfKind(KindOf(AsyncFunctionDeclaration).value) == AsyncFunctionDeclaration
  {
  }

  lemma AsyncFunctionExpressionOwnsKind()
    ensures StructOfKind(KindOf(AsyncFunctionExpression).value) == AsyncFunctionExpression
  {
  }

  lemma AwaitExpressionOwnsKind()
    ensures StructOfKind(KindOf(AwaitExpression).value) == AwaitExpression
  {
  }

  lemma BinaryExpressionOwnsKind()
    ensures StructOfKind(KindOf(BinaryExpression).value) == BinaryExpression
  {
  }

  lemma BlockStatementOwnsKind()
    ensures StructOfKind(KindOf(BlockStatement).value) == BlockStatement
  {
  }

  lemma BreakStatementOwnsKind()
    ensures StructOfKind(KindOf(BreakStatement).value) == BreakStatement
  {
  }

  lemma CallExpressionOwnsKind()
    ensures StructOfKind(KindOf(CallExpression).value) == CallExpression
  {
  }

  lemma CatchClauseOwnsKind()
    ensures StructOfKind(KindOf(CatchClause).value) == CatchClause
  {
  }

  lemma ClassBodyOwnsKind()
    ensures StructOfKind(KindOf(ClassBody).value) == ClassBody
  {
  }

  lemma ClassDeclarationOwnsKind()
    ensures StructOfKind(KindOf(ClassDeclaration).value) == ClassDeclaration
  {
  }

  lemma ClassExpressionOwnsKind()
    ensures StructOfKind(KindOf(ClassExpression).value) == ClassExpression
  {
  }

  lemma ComputedMemberExpressionOwnsKind()
    ensures StructOfKind(KindOf(ComputedMemberExpression).value) == ComputedMemberExpression
  {
  }

  lemma ConditionalExpressionOwnsKind()
    ensures StructOfKind(KindOf(ConditionalExpression).value) == ConditionalExpression
  {
  }

  lemma ContinueStatementOwnsKind()
    ensures StructOfKind(KindOf(ContinueStatement).value) == ContinueStatement
  {
  }

  lemma DebuggerStatementOwnsKind()
    ensures StructOfKind(KindOf(DebuggerStatement).value) == DebuggerStatement
  {
  }

  lemma DirectiveOwnsKind()
    ensures StructOfKind(KindOf(Directive).value) == Directive
  {
  }

  lemma DoWhileStatementOwnsKind()
    ensures StructOfKind(KindOf(DoWhileStatement).value) == DoWhileStatement
  {
  }

  lemma EmptyStatementOwnsKind()
    ensures StructOfKind(KindOf(EmptyStatement).value) == EmptyStatement
  {
  }

  lemma ExportAllDeclarationOwnsKind()
    ensures StructOfKind(KindOf(ExportAllDeclaration).value) == ExportAllDeclaration
  {
  }

  lemma ExportDefaultDeclarationOwnsKind()
    ensures StructOfKind(KindOf(ExportDefaultDeclaration).value) == ExportDefaultDeclaration
  {
  }

  lemma ExportNamedDeclarationOwnsKind()
    ensures StructOfKind(KindOf(ExportNamedDeclaration).value) == ExportNamedDeclaration
  {
  }

  lemma ExportSpecifierOwnsKind()
    ensures StructOfKind(KindOf(ExportSpecifier).value) == ExportSpecifier
  {
  }

  lemma ExpressionStatementOwnsKind()
    ensures StructOfKind(KindOf(ExpressionStatement).value) == ExpressionStatement
  {
  }

  lemma ForInStatementOwnsKind()
    ensures StructOfKind(KindOf(ForInStatement).value) == ForInStatement
  {
  }

  lemma ForOfStatementOwnsKind()
    ensures StructOfKind(KindOf(ForOfStatement).value) == ForOfStatement
  {
  }

  lemma ForStatementOwnsKind()
    ensures StructOfKind(KindOf(ForStatement).value) == ForStatement
  {
  }

  lemma FunctionDeclarationOwnsKind()
    ensures StructOfKind(KindOf(FunctionDeclaration).value) == FunctionDeclaration
  {
  }

  lemma FunctionExpressionOwnsKind()
    ensures StructOfKind(KindOf(FunctionExpression).value) == FunctionExpression
  {
  }

  lemma IdentifierOwnsKind()
    ensures StructOfKind(KindOf(Identifier).value) == Identifier
  {
  }

  lemma IfStatementOwnsKind()
    ensures StructOfKind(KindOf(IfStatement).value) == IfStatement
  {
  }

  lemma ImportOwnsKind()
    ensures StructOfKind(KindOf(Import).value) == Import
  {
  }

  lemma ImportDeclarationOwnsKind()
    ensures StructOfKind(KindOf(ImportDeclaration).value) == ImportDeclaration
  {
  }

  lemma ImportDefaultSpecifierOwnsKind()
    ensures StructOfKind(KindOf(ImportDefaultSpecifier).value) == ImportDefaultSpecifier
  {
  }

  lemma ImportNamespaceSpecifierOwnsKind()
    ensures StructOfKind(KindOf(ImportNamespaceSpecifier).value) == ImportNamespaceSpecifier
  {
  }

  lemma ImportSpecifierOwnsKind()
    ensures StructOfKind(KindOf(ImportSpecifier).value) == ImportSpecifier
  {
  }

  lemma LabeledStatementOwnsKind()
    ensures StructOfKind(KindOf(LabeledStatement).value) == LabeledStatement
  {
  }

  lemma LiteralOwnsKind()
    ensures StructOfKind(KindOf(Literal).value) == Literal
  {
  }

  lemma MetaPropertyOwnsKind()
    ensures StructOfKind(KindOf(MetaProperty).value) == MetaProperty
  {
  }

  lemma MethodDefinitionOwnsKind()
    ensures StructOfKind(KindOf(MethodDefinition).value) == MethodDefinition
  {
  }

  lemma NewExpressionOwnsKind()
    ensures StructOfKind(KindOf(NewExpression).value) == NewExpression
  {
  }

  lemma ObjectExpressionOwnsKind()
    ensures StructOfKind(KindOf(ObjectExpression).value) == ObjectExpression
  {
  }

  lemma ObjectPatternOwnsKind()
    ensures StructOfKind(KindOf(ObjectPattern).value) == ObjectPattern
  {
  }

  lemma PropertyOwnsKind()
    ensures StructOfKind(KindOf(Property).value) == Property
  {
  }

  lemma RegexLiteralOwnsKind()
    ensures StructOfKind(KindOf(RegexLiteral).value) == RegexLiteral
  {
  }

  lemma RestElementOwnsKind()
    ensures StructOfKind(KindOf(RestElement).value) == RestElement
  {
  }

  lemma ReturnStatementOwnsKind()
    ensures StructOfKind(KindOf(ReturnStatement).value) == ReturnStatement
  {
  }

  lemma SequenceExpressionOwnsKind()
    ensures StructOfKind(KindOf(SequenceExpression).value) == SequenceExpression
  {
  }

  lemma SpreadElementOwnsKind()
    ensures StructOfKind(KindOf(SpreadElement).value) == SpreadElement
  {
  }

  lemma StaticMemberExpressionOwnsKind()
    ensures StructOfKind(KindOf(StaticMemberExpression).value) == StaticMemberExpression
  {
  }

  lemma SuperOwnsKind()
    ensures StructOfKind(KindOf(Super).value) == Super
  {
  }

  lemma SwitchCaseOwnsKind()
    ensures StructOfKind(KindOf(SwitchCase).value) == SwitchCase
  {
  }

  lemma SwitchStatementOwnsKind()
    ensures StructOfKind(KindOf(SwitchStatement).value) == SwitchStatement
  {
  }

  lemma TaggedTemplateExpressionOwnsKind()
    ensures StructOfKind(KindOf(TaggedTemplateExpression).value) == TaggedTemplateExpression
  {
  }

  lemma TemplateElementOwnsKind()
    ensures StructOfKind(KindOf(TemplateElement).value) == TemplateElement
  {
  }

  lemma TemplateLiteralOwnsKind()
    ensures StructOfKind(KindOf(TemplateLiteral).value) == TemplateLiteral
  {
  }

  lemma ThisExpressionOwnsKind()
    ensures StructOfKind(KindOf(ThisExpression).value) == ThisExpression
  {
  }

  lemma ThrowStatementOwnsKind()
    ensures StructOfKind(KindOf(ThrowStatement).value) == ThrowStatement
  {
  }

  lemma TryStatementOwnsKind()
    ensures StructOfKind(KindOf(TryStatement).value) == TryStatement
  {
  }

  lemma UnaryExpressionOwnsKind()
    ensures StructOfKind(KindOf(UnaryExpression).value) == UnaryExpression
  {
  }

  lemma UpdateExpressionOwnsKind()
    ensures StructOfKind(KindOf(UpdateExpression).value) == UpdateExpression
  {
  }

  lemma VariableDeclarationOwnsKind()
    ensures StructOfKind(KindOf(VariableDeclaration).value) == VariableDeclaration
  {
  }

  lemma VariableDeclaratorOwnsKind()
    ensures StructOfKind(KindOf(VariableDeclarator).value) == VariableDeclarator
  {
  }

  lemma WhileStatementOwnsKind()
    ensures StructOfKind(KindOf(WhileStatement).value) == WhileStatement
  {
  }

  lemma WithStatementOwnsKind()
    ensures StructOfKind(KindOf(WithStatement).value) == WithStatement
  {
  }

  lemma YieldExpressionOwnsKind()
    ensures StructOfKind(KindOf(YieldExpression).value) == YieldExpression
  {
  }

  /** No union holds a `Program`. */
  lemma NotProgramAlt(s: StructName)
    requires InUnion(Syntax, s)
    ensures s != Script && s != Module
  {
    var u, i :| 0 <= i < |AltsOf(u)| && AltsOf(u)[i] == StructType(s);
    AltsOk(u, i);
  }

  /** Property keys, tags and union alternatives are unambiguous, so that
      decoding what was encoded gives it back. */
  lemma SyntaxUnambiguous()
    ensures Unambiguous(Syntax)
  {
    forall s, a, b | 0 <= a < b < |Syntax.fields(s)|
      ensures Syntax.fields(s)[a].key != Syntax.fields(s)[b].key
    {
      FieldsDistinct(s);
    }
    forall f1, f2 ensures KeyName(f1) == KeyName(f2) ==> f1 == f2 {
      KeyNameInjective(f1, f2);
    }
    forall f ensures KeyName(f) != "type" {
      KeyNameInjective(f, f);
    }
    forall k1, k2 ensures RawValue(k1) == RawValue(k2) ==> k1 == k2 {
      RawValueInjective(k1, k2);
    }
    forall s1, s2 | InUnion(Syntax, s1) && InUnion(Syntax, s2) && KindOf(s1).Some? && KindOf(s1) == KindOf(s2)
      ensures s1 == s2
    {
      NotProgramAlt(s1);
      NotProgramAlt(s2);
      OwnsKind(s1);
      OwnsKind(s2);
    }
  }
}
