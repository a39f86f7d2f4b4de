/** The closed catalogue of syntax-error messages (esprima's messages.ts) and
    its V8-compatible descriptions. */
module Messages {

  datatype Message =
    | BadImportCallArity
    | BadGetterArity
    | BadSetterArity
    | BadSetterRestParameter
    | ConstructorIsAsync
    | ConstructorSpecialMethod
    | DeclarationMissingInitializer
    | DefaultRestParameter
    | DefaultRestProperty
    | DuplicateBinding
    | DuplicateConstructor
    | DuplicateProtoProperty
    | ForInOfLoopInitializer
    | GeneratorInLegacyContext
    | IllegalBreak
    | IllegalContinue
    | IllegalExportDeclaration
    | IllegalImportDeclaration
    | IllegalLanguageModeDirective
    | IllegalReturn
    | InvalidEscapedReservedWord
    | InvalidHexEscapeSequence
    | InvalidLHSInAssignment
    | InvalidLHSInForIn
    | InvalidLHSInForLoop
    | InvalidModuleSpecifier
    | InvalidRegExp
    | LetInLexicalBinding
    | MissingFromClause
    | MultipleDefaultsInSwitch
    | NewlineAfterThrow
    | NoAsAfterImportNamespace
    | NoCatchOrFinally
    | ParameterAfterRestParameter
    | PropertyAfterRestProperty
    | Redeclaration
    | StaticPrototype
    | StrictCatchVariable
    | StrictDelete
    | StrictFunction
    | StrictFunctionName
    | StrictLHSAssignment
    | StrictLHSPostfix
    | StrictLHSPrefix
    | StrictModeWith
    | StrictOctalLiteral
    | StrictParamDupe
    | StrictParamName
    | StrictReservedWord
    | StrictVarName
    | TemplateOctalLiteral
    | UnexpectedEOS
    | UnexpectedIdentifier
    | UnexpectedNumber
    | UnexpectedReserved
    | UnexpectedString
    | UnexpectedTemplate
    | UnexpectedToken
    | UnexpectedTokenIllegal
    | UnknownLabel
    | UnterminatedRegExp

  /** `errorDescription`: the V8 wording of each message; `%0` and `%1` stand
      for the parts the parser fills in. */
  function ErrorDescription(m: Message): string {
    match m
    case BadImportCallArity => "Unexpected token"
    case BadGetterArity => "Getter must not have any formal parameters"
    case BadSetterArity => "Setter must have exactly one formal parameter"
    case BadSetterRestParameter => "Setter function argument must not be a rest parameter"
    case ConstructorIsAsync => "Class constructor may not be an async method"
    case ConstructorSpecialMethod => "Class constructor may not be an accessor"
    case DeclarationMissingInitializer => "Missing initializer in %0 declaration"
    case DefaultRestParameter => "Unexpected token ="
    case DefaultRestProperty => "Unexpected token ="
    case DuplicateBinding => "Duplicate binding %0"
    case DuplicateConstructor => "A class may only have one constructor"
    case DuplicateProtoProperty => "Duplicate __proto__ fields are not allowed in object literals"
    case ForInOfLoopInitializer => "%0 loop variable declaration may not have an initializer"
    case GeneratorInLegacyContext => "Generator declarations are not allowed in legacy contexts"
    case IllegalBreak => "Illegal break statement"
    case IllegalContinue => "Illegal continue statement"
    case IllegalExportDeclaration => "Unexpected token"
    case IllegalImportDeclaration => "Unexpected token"
    case IllegalLanguageModeDirective => "Illegal 'use strict' directive in function with non-simple parameter list"
    case IllegalReturn => "Illegal return statement"
    case InvalidEscapedReservedWord => "Keyword must not contain escaped characters"
    case InvalidHexEscapeSequence => "Invalid hexadecimal escape sequence"
    case InvalidLHSInAssignment => "Invalid left-hand side in assignment"
    case InvalidLHSInForIn => "Invalid left-hand side in for-in"
    case InvalidLHSInForLoop => "Invalid left-hand side in for-loop"
    case InvalidModuleSpecifier => "Unexpected token"
    case InvalidRegExp => "Invalid regular expression"
    case LetInLexicalBinding => "let is disallowed as a lexically bound name"
    case MissingFromClause => "Unexpected token"
    case MultipleDefaultsInSwitch => "More than one default clause in switch statement"
    case NewlineAfterThrow => "Illegal newline after throw"
    case NoAsAfterImportNamespace => "Unexpected token"
    case NoCatchOrFinally => "Missing catch or finally after try"
    case ParameterAfterRestParameter => "Rest parameter must be last formal parameter"
    case PropertyAfterRestProperty => "Unexpected token"
    case Redeclaration => "%0 '%1' has already been declared"
    case StaticPrototype => "Classes may not have static property named prototype"
    case StrictCatchVariable => "Catch variable may not be eval or arguments in strict mode"
    case StrictDelete => "Delete of an unqualified identifier in strict mode."
    case StrictFunction => "In strict mode code, functions can only be declared at top level or inside a block"
    case StrictFunctionName => "Function name may not be eval or arguments in strict mode"
    case StrictLHSAssignment => "Assignment to eval or arguments is not allowed in strict mode"
    case StrictLHSPostfix => "Postfix increment/decrement may not have eval or arguments operand in strict mode"
    case StrictLHSPrefix => "Prefix increment/decrement may not have eval or arguments operand in strict mode"
    case StrictModeWith => "Strict mode code may not include a with statement"
    case StrictOctalLiteral => "Octal literals are not allowed in strict mode."
    case StrictParamDupe => "Strict mode function may not have duplicate parameter names"
    case StrictParamName => "Parameter name eval or arguments is not allowed in strict mode"
    case StrictReservedWord => "Use of future reserved word in strict mode"
    case StrictVarName => "Variable name may not be eval or arguments in strict mode"
    case TemplateOctalLiteral => "Octal literals are not allowed in template strings."
    case UnexpectedEOS => "Unexpected end of input"
    case UnexpectedIdentifier => "Unexpected identifier"
    case UnexpectedNumber => "Unexpected number"
    case UnexpectedReserved => "Unexpected reserved word"
    case UnexpectedString => "Unexpected string"
    case UnexpectedTemplate => "Unexpected quasi %0"
    case UnexpectedToken => "Unexpected token %0"
    case UnexpectedTokenIllegal => "Unexpected token ILLEGAL"
    case UnknownLabel => "Undefined label '%0'"
    case UnterminatedRegExp => "Invalid regular expression: missing /"
  }

  /** What Swift's string interpolation `"\(m)"` renders for a message: the
      name of its case. */
  function CaseName(m: Message): string {
    match m
    case BadImportCallArity => "BadImportCallArity"
    case BadGetterArity => "BadGetterArity"
    case BadSetterArity => "BadSetterArity"
    case BadSetterRestParameter => "BadSetterRestParameter"
    case ConstructorIsAsync => "ConstructorIsAsync"
    case ConstructorSpecialMethod => "ConstructorSpecialMethod"
    case DeclarationMissingInitializer => "DeclarationMissingInitializer"
    case DefaultRestParameter => "DefaultRestParameter"
    case DefaultRestProperty => "DefaultRestProperty"
    case DuplicateBinding => "DuplicateBinding"
    case DuplicateConstructor => "DuplicateConstructor"
    case DuplicateProtoProperty => "DuplicateProtoProperty"
    case ForInOfLoopInitializer => "ForInOfLoopInitializer"
    case GeneratorInLegacyContext => "GeneratorInLegacyContext"
    case IllegalBreak => "IllegalBreak"
    case IllegalContinue => "IllegalContinue"
    case IllegalExportDeclaration => "IllegalExportDeclaration"
    case IllegalImportDeclaration => "IllegalImportDeclaration"
    case IllegalLanguageModeDirective => "IllegalLanguageModeDirective"
    case IllegalReturn => "IllegalReturn"
    case InvalidEscapedReservedWord => "InvalidEscapedReservedWord"
    case InvalidHexEscapeSequence => "InvalidHexEscapeSequence"
    case InvalidLHSInAssignment => "InvalidLHSInAssignment"
    case InvalidLHSInForIn => "InvalidLHSInForIn"
    case InvalidLHSInForLoop => "InvalidLHSInForLoop"
    case InvalidModuleSpecifier => "InvalidModuleSpecifier"
    case InvalidRegExp => "InvalidRegExp"
    case LetInLexicalBinding => "LetInLexicalBinding"
    case MissingFromClause => "MissingFromClause"
    case MultipleDefaultsInSwitch => "MultipleDefaultsInSwitch"
    case NewlineAfterThrow => "NewlineAfterThrow"
    case NoAsAfterImportNamespace => "NoAsAfterImportNamespace"
    case NoCatchOrFinally => "NoCatchOrFinally"
    case ParameterAfterRestParameter => "ParameterAfterRestParameter"
    case PropertyAfterRestProperty => "PropertyAfterRestProperty"
    case Redeclaration => "Redeclaration"
    case StaticPrototype => "StaticPrototype"
    case StrictCatchVariable => "StrictCatchVariable"
    case StrictDelete => "StrictDelete"
    case StrictFunction => "StrictFunction"
    case StrictFunctionName => "StrictFunctionName"
    case StrictLHSAssignment => "StrictLHSAssignment"
    case StrictLHSPostfix => "StrictLHSPostfix"
    case StrictLHSPrefix => "StrictLHSPrefix"
    case StrictModeWith => "StrictModeWith"
    case StrictOctalLiteral => "StrictOctalLiteral"
    case StrictParamDupe => "StrictParamDupe"
    case StrictParamName => "StrictParamName"
    case StrictReservedWord => "StrictReservedWord"
    case StrictVarName => "StrictVarName"
    case TemplateOctalLiteral => "TemplateOctalLiteral"
    case UnexpectedEOS => "UnexpectedEOS"
    case UnexpectedIdentifier => "UnexpectedIdentifier"
    case UnexpectedNumber => "UnexpectedNumber"
    case UnexpectedReserved => "UnexpectedReserved"
    case UnexpectedString => "UnexpectedString"
    case UnexpectedTemplate => "UnexpectedTemplate"
    case UnexpectedToken => "UnexpectedToken"
    case UnexpectedTokenIllegal => "UnexpectedTokenIllegal"
    case UnknownLabel => "UnknownLabel"
    case UnterminatedRegExp => "UnterminatedRegExp"
  }

  /** `errorDescription` is not one to one: seven messages share the V8 wording
      "Unexpected token", so the case, not the text, identifies an error. */
  lemma SharedUnexpectedToken()
    ensures ErrorDescription(BadImportCallArity) == "Unexpected token"
    ensures ErrorDescription(IllegalExportDeclaration) == "Unexpected token"
    ensures ErrorDescription(IllegalImportDeclaration) == "Unexpected token"
    ensures ErrorDescription(InvalidModuleSpecifier) == "Unexpected token"
    ensures ErrorDescription(MissingFromClause) == "Unexpected token"
    ensures ErrorDescription(NoAsAfterImportNamespace) == "Unexpected token"
    ensures ErrorDescription(PropertyAfterRestProperty) == "Unexpected token"
  {
  }

  /** The rendering Swift interpolates into an error message is the case name,
      which is never the V8 wording `errorDescription` gives for that same
      message. */
  lemma CaseNameIsNotDescription(m: Message)
    ensures CaseName(m) != ErrorDescription(m)
  {
    match m
    case BadImportCallArity =>
    case BadGetterArity =>
    case BadSetterArity =>
    case BadSetterRestParameter =>
    case ConstructorIsAsync =>
    case ConstructorSpecialMethod =>
    case DeclarationMissingInitializer =>
    case DefaultRestParameter =>
    case DefaultRestProperty =>
    case DuplicateBinding =>
    case DuplicateConstructor =>
    case DuplicateProtoProperty =>
    case ForInOfLoopInitializer =>
    case GeneratorInLegacyContext =>
    case IllegalBreak =>
    case IllegalContinue =>
    case IllegalExportDeclaration =>
    case IllegalImportDeclaration =>
    case IllegalLanguageModeDirective =>
    case IllegalReturn =>
    case InvalidEscapedReservedWord =>
    case InvalidHexEscapeSequence =>
    case InvalidLHSInAssignment =>
    case InvalidLHSInForIn =>
    case InvalidLHSInForLoop =>
    case InvalidModuleSpecifier =>
    case InvalidRegExp =>
    case LetInLexicalBinding =>
    case MissingFromClause =>
    case MultipleDefaultsInSwitch =>
    case NewlineAfterThrow =>
    case NoAsAfterImportNamespace =>
    case NoCatchOrFinally =>
    case ParameterAfterRestParameter =>
    case PropertyAfterRestProperty =>
    case Redeclaration =>
    case StaticPrototype =>
    case StrictCatchVariable =>
    case StrictDelete =>
    case StrictFunction =>
    case StrictFunctionName =>
    case StrictLHSAssignment =>
    case StrictLHSPostfix =>
    case StrictLHSPrefix =>
    case StrictModeWith =>
    case StrictOctalLiteral =>
    case StrictParamDupe =>
    case StrictParamName =>
    case StrictReservedWord =>
    case StrictVarName =>
    case TemplateOctalLiteral =>
    case UnexpectedEOS =>
    case UnexpectedIdentifier =>
    case UnexpectedNumber =>
    case UnexpectedReserved =>
    case UnexpectedString =>
    case UnexpectedTemplate =>
    case UnexpectedToken =>
    case UnexpectedTokenIllegal =>
    case UnknownLabel =>
    case UnterminatedRegExp =>
  }
}
