/** The names of the stored properties of the `JSSyntax` structs.  The
    synthesised Codable conformances write each property under its own name,
    so these are also the JSON keys. */
module FieldKeys {
  import opened Json

  datatype FieldKey =
    | AlternateField
    | ArgumentField
    | ArgumentsField
    | AsyncField
    | BlockField
    | BodyField
    | CalleeField
    | CasesField
    | ComputedField
    | ConsequentField
    | CookedField
    | DeclarationField
    | DeclarationsField
    | DelegateField
    | DirectiveField
    | DiscriminantField
    | EachField
    | ElementsField
    | ExportedField
    | ExpressionField
    | ExpressionsField
    | FinalizerField
    | FlagsField
    | GeneratorField
    | HandlerField
    | IdField
    | ImportedField
    | InitField
    | KeyField
    | KindField
    | LabelField
    | LeftField
    | LocalField
    | MetaField
    | MethodField
    | NameField
    | ObjectField
    | OperatorField
    | ParamField
    | ParamsField
    | PatternField
    | PrefixField
    | PropertiesField
    | PropertyField
    | QuasiField
    | QuasisField
    | RawField
    | RegexField
    | RightField
    | ShorthandField
    | SourceField
    | SourceTypeField
    | SpecifiersField
    | StaticField
    | SuperClassField
    | TagField
    | TailField
    | TestField
    | UpdateField
    | ValueField

  /** The JSON key of each property. */
  function KeyName(f: FieldKey): string {
    match f
    case AlternateField => "alternate"
    case ArgumentField => "argument"
    case ArgumentsField => "arguments"
    case AsyncField => "async"
    case BlockField => "block"
    case BodyField => "body"
    case CalleeField => "callee"
    case CasesField => "cases"
    case ComputedField => "computed"
    case ConsequentField => "consequent"
    case CookedField => "cooked"
    case DeclarationField => "declaration"
    case DeclarationsField => "declarations"
    case DelegateField => "delegate"
    case DirectiveField => "directive"
    case DiscriminantField => "discriminant"
    case EachField => "each"
    case ElementsField => "elements"
    case ExportedField => "exported"
    case ExpressionField => "expression"
    case ExpressionsField => "expressions"
    case FinalizerField => "finalizer"
    case FlagsField => "flags"
    case GeneratorField => "generator"
    case HandlerField => "handler"
    case IdField => "id"
    case ImportedField => "imported"
    case InitField => "init"
    case KeyField => "key"
    case KindField => "kind"
    case LabelField => "label"
    case LeftField => "left"
    case LocalField => "local"
    case MetaField => "meta"
    case MethodField => "method"
    case NameField => "name"
    case ObjectField => "object"
    case OperatorField => "operator"
    case ParamField => "param"
    case ParamsField => "params"
    case PatternField => "pattern"
    case PrefixField => "prefix"
    case PropertiesField => "properties"
    case PropertyField => "property"
    case QuasiField => "quasi"
    case QuasisField => "quasis"
    case RawField => "raw"
    case RegexField => "regex"
    case RightField => "right"
    case ShorthandField => "shorthand"
    case SourceField => "source"
    case SourceTypeField => "sourceType"
    case SpecifiersField => "specifiers"
    case StaticField => "static"
    case SuperClassField => "superClass"
    case TagField => "tag"
    case TailField => "tail"
    case TestField => "test"
    case UpdateField => "update"
    case ValueField => "value"
  }

  /** The one property whose key `t` could be, read from `t`'s length and a few
      of its characters. */
  function KeyCandidate(t: string): Option<FieldKey> {
    match |t|
    case 2 => Some(IdField)
    case 3 => (if t[2] == 'g' then Some(TagField)
        else if t[2] == 'w' then Some(RawField)
        else Some(KeyField))
    case 4 => (if t[2] == 'c' then Some(EachField)
        else if t[2] == 'd' then Some(BodyField)
        else if t[2] == 'f' then Some(LeftField)
        else if t[2] == 'i' then (if t[3] == 'l' then Some(TailField)
          else Some(InitField))
        else if t[2] == 'm' then Some(NameField)
        else if t[2] == 'n' then Some(KindField)
        else if t[2] == 's' then Some(TestField)
        else Some(MetaField))
    case 5 => (if t[4] == 'c' then Some(AsyncField)
        else if t[4] == 'e' then Some(ValueField)
        else if t[4] == 'i' then Some(QuasiField)
        else if t[4] == 'k' then Some(BlockField)
        else if t[4] == 'l' then (if t[3] == 'a' then Some(LocalField)
          else Some(LabelField))
        else if t[4] == 'm' then Some(ParamField)
        else if t[4] == 's' then (if t[3] == 'e' then Some(CasesField)
          else Some(FlagsField))
        else if t[4] == 't' then Some(RightField)
        else Some(RegexField))
    case 6 => (if t[3] == 'a' then (if t[5] == 'e' then Some(UpdateField)
          else Some(ParamsField))
        else if t[3] == 'e' then Some(ObjectField)
        else if t[3] == 'f' then Some(PrefixField)
        else if t[3] == 'h' then Some(MethodField)
        else if t[3] == 'k' then Some(CookedField)
        else if t[3] == 'l' then Some(CalleeField)
        else if t[3] == 'r' then Some(SourceField)
        else if t[3] == 's' then Some(QuasisField)
        else Some(StaticField))
    case 7 => (if t[6] == 'n' then Some(PatternField)
        else Some(HandlerField))
    case 8 => (if t[1] == 'e' then Some(DelegateField)
        else if t[1] == 'l' then Some(ElementsField)
        else if t[1] == 'm' then Some(ImportedField)
        else if t[1] == 'o' then Some(ComputedField)
        else if t[1] == 'p' then Some(OperatorField)
        else if t[1] == 'r' then (if t[7] == 't' then Some(ArgumentField)
          else Some(PropertyField))
        else Some(ExportedField))
    case 9 => (if t[5] == 'a' then Some(GeneratorField)
        else if t[5] == 'e' then Some(ArgumentsField)
        else if t[5] == 'h' then Some(ShorthandField)
        else if t[5] == 'i' then Some(FinalizerField)
        else if t[5] == 'n' then Some(AlternateField)
        else Some(DirectiveField))
    case 10 => (if t[8] == 'e' then Some(PropertiesField)
        else if t[8] == 'n' then Some(ConsequentField)
        else if t[8] == 'o' then Some(ExpressionField)
        else if t[8] == 'p' then Some(SourceTypeField)
        else if t[8] == 'r' then Some(SpecifiersField)
        else Some(SuperClassField))
    case 11 => (if t[10] == 'n' then Some(DeclarationField)
        else Some(ExpressionsField))
    case 12 => (if t[11] == 's' then Some(DeclarationsField)
        else Some(DiscriminantField))
    case _ => None
  }

  /** The property whose key is exactly `t`, if any. */
  function ParseFieldKey(t: string): (r: Option<FieldKey>)
    ensures r.Some? ==> KeyName(r.value) == t
  {
    match KeyCandidate(t)
    case Some(f) => if KeyName(f) == t then Some(f) else None
    case None => None
  }

  /** Every key parses back to its own property. */
  lemma ParseKeyName(f: FieldKey)
    ensures ParseFieldKey(KeyName(f)) == Some(f)
  {
    match f
    case AlternateField => AlternateFieldParses();
    case ArgumentField => ArgumentFieldParses();
    case ArgumentsField => ArgumentsFieldParses();
    case AsyncField => AsyncFieldParses();
    case BlockField => BlockFieldParses();
    case BodyField => BodyFieldParses();
    case CalleeField => CalleeFieldParses();
    case CasesField => CasesFieldParses();
    case ComputedField => ComputedFieldParses();
    case ConsequentField => ConsequentFieldParses();
    case CookedField => CookedFieldParses();
    case DeclarationField => DeclarationFieldParses();
    case DeclarationsField => DeclarationsFieldParses();
    case DelegateField => DelegateFieldParses();
    case DirectiveField => DirectiveFieldParses();
    case DiscriminantField => DiscriminantFieldParses();
    case EachField => EachFieldParses();
    case ElementsField => ElementsFieldParses();
    case ExportedField => ExportedFieldParses();
    case ExpressionField => ExpressionFieldParses();
    case ExpressionsField => ExpressionsFieldParses();
    case FinalizerField => FinalizerFieldParses();
    case FlagsField => FlagsFieldParses();
    case GeneratorField => GeneratorFieldParses();
    case HandlerField => HandlerFieldParses();
    case IdField => IdFieldParses();
    case ImportedField => ImportedFieldParses();
    case InitField => InitFieldParses();
    case KeyField => KeyFieldParses();
    case KindField => KindFieldParses();
    case LabelField => LabelFieldParses();
    case LeftField => LeftFieldParses();
    case LocalField => LocalFieldParses();
    case MetaField => MetaFieldParses();
    case MethodField => MethodFieldParses();
    case NameField => NameFieldParses();
    case ObjectField => ObjectFieldParses();
    case OperatorField => OperatorFieldParses();
    case ParamField => ParamFieldParses();
    case ParamsField => ParamsFieldParses();
    case PatternField => PatternFieldParses();
    case PrefixField => PrefixFieldParses();
    case PropertiesField => PropertiesFieldParses();
    case PropertyField => PropertyFieldParses();
    case QuasiField => QuasiFieldParses();
    case QuasisField => QuasisFieldParses();
    case RawField => RawFieldParses();
    case RegexField => RegexFieldParses();
    case RightField => RightFieldParses();
    case ShorthandField => ShorthandFieldParses();
    case SourceField => SourceFieldParses();
    case SourceTypeField => SourceTypeFieldParses();
    case SpecifiersField => SpecifiersFieldParses();
    case StaticField => StaticFieldParses();
    case SuperClassField => SuperClassFieldParses();
    case TagField => TagFieldParses();
    case TailField => TailFieldParses();
    case TestField => TestFieldParses();
    case UpdateField => UpdateFieldParses();
    case ValueField => ValueFieldParses();
  }

  // Table facts, one per key, generated from the key table. Each is a single
  // evaluation, proved without a body; the lemma above is their case split.

  lemma AlternateFieldParses()
    ensures KeyName(AlternateField) == "alternate" && ParseFieldKey("alternate") == Some(AlternateField)
  {
  }

  lemma ArgumentFieldParses()
    ensures KeyName(ArgumentField) == "argument" && ParseFieldKey("argument") == Some(ArgumentField)
  {
  }

  lemma ArgumentsFieldParses()
    ensures KeyName(ArgumentsField) == "arguments" && ParseFieldKey("arguments") == Some(ArgumentsField)
  {
  }

  lemma AsyncFieldParses()
    ensures KeyName(AsyncField) == "async" && ParseFieldKey("async") == Some(AsyncField)
  {
  }

  lemma BlockFieldParses()
    ensures KeyName(BlockField) == "block" && ParseFieldKey("block") == Some(BlockField)
  {
  }

  lemma BodyFieldParses()
    ensures KeyName(BodyField) == "body" && ParseFieldKey("body") == Some(BodyField)
  {
  }

  lemma CalleeFieldParses()
    ensures KeyName(CalleeField) == "callee" && ParseFieldKey("callee") == Some(CalleeField)
  {
  }

  lemma CasesFieldParses()
    ensures KeyName(CasesField) == "cases" && ParseFieldKey("cases") == Some(CasesField)
  {
  }

  lemma ComputedFieldParses()
    ensures KeyName(ComputedField) == "computed" && ParseFieldKey("computed") == Some(ComputedField)
  {
  }

  lemma ConsequentFieldParses()
    ensures KeyName(ConsequentField) == "consequent" && ParseFieldKey("consequent") == Some(ConsequentField)
  {
  }

  lemma CookedFieldParses()
    ensures KeyName(CookedField) == "cooked" && ParseFieldKey("cooked") == Some(CookedField)
  {
  }

  lemma DeclarationFieldParses()
    ensures KeyName(DeclarationField) == "declaration" && ParseFieldKey("declaration") == Some(DeclarationField)
  {
  }

  lemma DeclarationsFieldParses()
    ensures KeyName(DeclarationsField) == "declarations" && ParseFieldKey("declarations") == Some(DeclarationsField)
  {
  }

  lemma DelegateFieldParses()
    ensures KeyName(DelegateField) == "delegate" && ParseFieldKey("delegate") == Some(DelegateField)
  {
  }

  lemma DirectiveFieldParses()
    ensures KeyName(DirectiveField) == "directive" && ParseFieldKey("directive") == Some(DirectiveField)
  {
  }

  lemma DiscriminantFieldParses()
    ensures KeyName(DiscriminantField) == "discriminant" && ParseFieldKey("discriminant") == Some(DiscriminantField)
  {
  }

  lemma EachFieldParses()
    ensures KeyName(EachField) == "each" && ParseFieldKey("each") == Some(EachField)
  {
  }

  lemma ElementsFieldParses()
    ensures KeyName(ElementsField) == "elements" && ParseFieldKey("elements") == Some(ElementsField)
  {
  }

  lemma ExportedFieldParses()
    ensures KeyName(ExportedField) == "exported" && ParseFieldKey("exported") == Some(ExportedField)
  {
  }

  lemma ExpressionFieldParses()
    ensures KeyName(ExpressionField) == "expression" && ParseFieldKey("expression") == Some(ExpressionField)
  {
  }

  lemma ExpressionsFieldParses()
    ensures KeyName(ExpressionsField) == "expressions" && ParseFieldKey("expressions") == Some(ExpressionsField)
  {
  }

  lemma FinalizerFieldParses()
    ensures KeyName(FinalizerField) == "finalizer" && ParseFieldKey("finalizer") == Some(FinalizerField)
  {
  }

  lemma FlagsFieldParses()
    ensures KeyName(FlagsField) == "flags" && ParseFieldKey("flags") == Some(FlagsField)
  {
  }

  lemma GeneratorFieldParses()
    ensures KeyName(GeneratorField) == "generator" && ParseFieldKey("generator") == Some(GeneratorField)
  {
  }

  lemma HandlerFieldParses()
    ensures KeyName(HandlerField) == "handler" && ParseFieldKey("handler") == Some(HandlerField)
  {
  }

  lemma IdFieldParses()
    ensures KeyName(IdField) == "id" && ParseFieldKey("id") == Some(IdField)
  {
  }

  lemma ImportedFieldParses()
    ensures KeyName(ImportedField) == "imported" && ParseFieldKey("imported") == Some(ImportedField)
  {
  }

  lemma InitFieldParses()
    ensures KeyName(InitField) == "init" && ParseFieldKey("init") == Some(InitField)
  {
  }

  lemma KeyFieldParses()
    ensures KeyName(KeyField) == "key" && ParseFieldKey("key") == Some(KeyField)
  {
  }

  lemma KindFieldParses()
    ensures KeyName(KindField) == "kind" && ParseFieldKey("kind") == Some(KindField)
  {
  }

  lemma LabelFieldParses()
    ensures KeyName(LabelField) == "label" && ParseFieldKey("label") == Some(LabelField)
  {
  }

  lemma LeftFieldParses()
    ensures KeyName(LeftField) == "left" && ParseFieldKey("left") == Some(LeftField)
  {
  }

  lemma LocalFieldParses()
    ensures KeyName(LocalField) == "local" && ParseFieldKey("local") == Some(LocalField)
  {
  }

  lemma MetaFieldParses()
    ensures KeyName(MetaField) == "meta" && ParseFieldKey("meta") == Some(MetaField)
  {
  }

  lemma MethodFieldParses()
    ensures KeyName(MethodField) == "method" && ParseFieldKey("method") == Some(MethodField)
  {
  }

  lemma NameFieldParses()
    ensures KeyName(NameField) == "name" && ParseFieldKey("name") == Some(NameField)
  {
  }

  lemma ObjectFieldParses()
    ensures KeyName(ObjectField) == "object" && ParseFieldKey("object") == Some(ObjectField)
  {
  }

  lemma OperatorFieldParses()
    ensures KeyName(OperatorField) == "operator" && ParseFieldKey("operator") == Some(OperatorField)
  {
  }

  lemma ParamFieldParses()
    ensures KeyName(ParamField) == "param" && ParseFieldKey("param") == Some(ParamField)
  {
  }

  lemma ParamsFieldParses()
    ensures KeyName(ParamsField) == "params" && ParseFieldKey("params") == Some(ParamsField)
  {
  }

  lemma PatternFieldParses()
    ensures KeyName(PatternField) == "pattern" && ParseFieldKey("pattern") == Some(PatternField)
  {
  }

  lemma PrefixFieldParses()
    ensures KeyName(PrefixField) == "prefix" && ParseFieldKey("prefix") == Some(PrefixField)
  {
  }

  lemma PropertiesFieldParses()
    ensures KeyName(PropertiesField) == "properties" && ParseFieldKey("properties") == Some(PropertiesField)
  {
  }

  lemma PropertyFieldParses()
    ensures KeyName(PropertyField) == "property" && ParseFieldKey("property") == Some(PropertyField)
  {
  }

  lemma QuasiFieldParses()
    ensures KeyName(QuasiField) == "quasi" && ParseFieldKey("quasi") == Some(QuasiField)
  {
  }

  lemma QuasisFieldParses()
    ensures KeyName(QuasisField) == "quasis" && ParseFieldKey("quasis") == Some(QuasisField)
  {
  }

  lemma RawFieldParses()
    ensures KeyName(RawField) == "raw" && ParseFieldKey("raw") == Some(RawField)
  {
  }

  lemma RegexFieldParses()
    ensures KeyName(RegexField) == "regex" && ParseFieldKey("regex") == Some(RegexField)
  {
  }

  lemma RightFieldParses()
    ensures KeyName(RightField) == "right" && ParseFieldKey("right") == Some(RightField)
  {
  }

  lemma ShorthandFieldParses()
    ensures KeyName(ShorthandField) == "shorthand" && ParseFieldKey("shorthand") == Some(ShorthandField)
  {
  }

  lemma SourceFieldParses()
    ensures KeyName(SourceField) == "source" && ParseFieldKey("source") == Some(SourceField)
  {
  }

  lemma SourceTypeFieldParses()
    ensures KeyName(SourceTypeField) == "sourceType" && ParseFieldKey("sourceType") == Some(SourceTypeField)
  {
  }

  lemma SpecifiersFieldParses()
    ensures KeyName(SpecifiersField) == "specifiers" && ParseFieldKey("specifiers") == Some(SpecifiersField)
  {
  }

  lemma StaticFieldParses()
    ensures KeyName(StaticField) == "static" && ParseFieldKey("static") == Some(StaticField)
  {
  }

  lemma SuperClassFieldParses()
    ensures KeyName(SuperClassField) == "superClass" && ParseFieldKey("superClass") == Some(SuperClassField)
  {
  }

  lemma TagFieldParses()
    ensures KeyName(TagField) == "tag" && ParseFieldKey("tag") == Some(TagField)
  {
  }

  lemma TailFieldParses()
    ensures KeyName(TailField) == "tail" && ParseFieldKey("tail") == Some(TailField)
  {
  }

  lemma TestFieldParses()
    ensures KeyName(TestField) == "test" && ParseFieldKey("test") == Some(TestField)
  {
  }

  lemma UpdateFieldParses()
    ensures KeyName(UpdateField) == "update" && ParseFieldKey("update") == Some(UpdateField)
  {
  }

  lemma ValueFieldParses()
    ensures KeyName(ValueField) == "value" && ParseFieldKey("value") == Some(ValueField)
  {
  }

  /** Distinct properties have distinct keys, and no property is stored under
      "type", the key the node's tag takes. */
  lemma KeyNameInjective(f1: FieldKey, f2: FieldKey)
    ensures KeyName(f1) == KeyName(f2) ==> f1 == f2
    ensures KeyName(f1) != "type"
  {
    ParseKeyName(f1);
    ParseKeyName(f2);
    assert ParseFieldKey("type") == None;
  }
}
