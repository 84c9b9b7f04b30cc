/**
 * The parts of the management framework that the three resource models share:
 * detyped model values (ModelNode), model versions, attribute definitions and
 * their validators, access-constraint tags, and the registration table a
 * resource definition fills with its operations and attributes.
 */
module Controller {

  datatype Option<+T> = None | Some(value: T)

  /** The outcome of a void operation that may throw: it passes or fails with an error. */
  datatype Outcome<+E> = Pass | Fail(error: E)

  datatype Result<+R, +E> = Success(value: R) | Failure(error: E)

  // ---------------------------------------------------------------------------
  // Detyped values
  // ---------------------------------------------------------------------------

  datatype ModelType = UNDEFINED | INT | STRING | EXPRESSION | LIST

  /** The values of a 32-bit Java int, which is what a value of type INT holds. */
  type Int32 = i: int | -0x8000_0000 <= i < 0x8000_0000

  /** A detyped model value. An expression keeps its text, such as "${queue.size:5}". */
  datatype ModelNode =
    | Undefined
    | IntNode(i: Int32)
    | StringNode(s: string)
    | ExpressionNode(expression: string)
    | ListNode(items: seq<ModelNode>)
  {
    predicate IsDefined() { !Undefined? }

    function GetType(): (t: ModelType)
      ensures t == UNDEFINED <==> !IsDefined()
      ensures t == EXPRESSION <==> ExpressionNode?
    {
      match this
      case Undefined => UNDEFINED
      case IntNode(_) => INT
      case StringNode(_) => STRING
      case ExpressionNode(_) => EXPRESSION
      case ListNode(_) => LIST
    }
  }

  function DigitChar(d: nat): (c: char)
    requires d < 10
    ensures '0' <= c <= '9'
    ensures c as int - '0' as int == d
  {
    ['0', '1', '2', '3', '4', '5', '6', '7', '8', '9'][d]
  }

  /** Decimal digits of n, most significant first. */
  function NatToString(n: nat): (r: string)
    ensures |r| > 0
    ensures forall k :: 0 <= k < |r| ==> '0' <= r[k] <= '9'
  {
    if n < 10 then [DigitChar(n)] else NatToString(n / 10) + [DigitChar(n % 10)]
  }

  /** The number a sequence of decimal digits denotes, most significant first. */
  function DecimalValue(s: string): nat
    requires forall k :: 0 <= k < |s| ==> '0' <= s[k] <= '9'
  {
    if s == [] then 0 else 10 * DecimalValue(s[..|s| - 1]) + (s[|s| - 1] as int - '0' as int)
  }

  /** The digits NatToString writes denote the number written. */
  lemma {:induction false} NatToStringValue(n: nat)
    ensures DecimalValue(NatToString(n)) == n
  {
    var r := NatToString(n);
    if n >= 10 {
      NatToStringValue(n / 10);
      assert r[..|r| - 1] == NatToString(n / 10);
    }
  }

  function IntToString(i: int): (r: string)
    ensures |r| > 0 && (r[0] == '-' || '0' <= r[0] <= '9')
    ensures r[0] == '-' <==> i < 0
  {
    if i < 0 then "-" + NatToString(-i) else NatToString(i)
  }

  function JoinWithCommas(parts: seq<string>): string
  {
    if |parts| == 0 then ""
    else if |parts| == 1 then parts[0]
    else parts[0] + "," + JoinWithCommas(parts[1..])
  }

  /**
   * The text form of a value (ModelNode.asString). A string is its own text and
   * an expression is its unresolved text; a list is written compactly.
   */
  function AsString(n: ModelNode): (r: string)
    ensures n.StringNode? ==> r == n.s
    ensures n.ExpressionNode? ==> r == n.expression
    ensures n.IntNode? ==> |r| > 0 && (r[0] == '-' <==> n.i < 0)
    ensures n.ListNode? ==> |r| >= 2 && r[0] == '[' && r[|r| - 1] == ']'
  {
    match n
    case Undefined => "undefined"
    case IntNode(i) => IntToString(i)
    case StringNode(s) => s
    case ExpressionNode(e) => e
    case ListNode(items) =>
      "[" + JoinWithCommas(seq(|items|, k requires 0 <= k < |items| => AsString(items[k]))) + "]"
  }

  /** Major.minor.micro version of a management model. */
  datatype ModelVersion = ModelVersion(major: nat, minor: nat, micro: nat)

  // ---------------------------------------------------------------------------
  // Access constraints (tags only; their evaluation is not modelled)
  // ---------------------------------------------------------------------------

  /** A sensitivity classification: its subsystem, its name, and whether access, read and write are sensitive by default. */
  datatype SensitivityClassification = SensitivityClassification(
    subsystem: string, name: string,
    accessDefault: bool, readDefault: bool, writeDefault: bool)

  datatype ApplicationTypeConfig = ApplicationTypeConfig(subsystem: string, name: string)

  /**
   * An access constraint attached to an attribute, operation or resource.
   * CREDENTIAL and SECURITY_DOMAIN_REF are the framework's own sensitive-target
   * constraints; the others wrap a classification or an application type.
   */
  datatype AccessConstraintDefinition =
    | CREDENTIAL
    | SECURITY_DOMAIN_REF
    | SensitiveTarget(classification: SensitivityClassification)
    | ApplicationType(config: ApplicationTypeConfig)

  // ---------------------------------------------------------------------------
  // Attribute definitions and validation
  // ---------------------------------------------------------------------------

  datatype Flag = RESTART_RESOURCE_SERVICES

  datatype AttributeDefinition = AttributeDefinition(
    name: string,
    modelType: ModelType,
    allowExpression: bool,
    allowNull: bool,
    defaultValue: Option<ModelNode>,
    flags: set<Flag>,
    attributeGroup: Option<string>,
    accessConstraints: seq<AccessConstraintDefinition>)

  /** What a builder starts from: a name, a type and whether the attribute is optional; nothing else set. */
  function NewAttribute(name: string, modelType: ModelType, optional: bool): (d: AttributeDefinition)
    ensures d.name == name && d.modelType == modelType && d.allowNull == optional
    ensures !d.allowExpression && d.defaultValue == None && d.flags == {}
    ensures d.attributeGroup == None && d.accessConstraints == []
  {
    AttributeDefinition(name, modelType, false, optional, None, {}, None, [])
  }

  datatype ValidationError =
    | Required
    | ExpressionNotAllowed
    | WrongType(expected: ModelType)
    | BelowMinimum(min: int)
    | NotAllowed(value: string)

  /**
   * The built-in validators, by the parameters they are created with:
   * IntRangeValidator(min, nullable), EnumValidator.create(type, nullable,
   * allowExpressions) over the enum's member names, and the ModelTypeValidator a
   * builder derives from an attribute's own type, nullability and expression flag.
   */
  datatype ParameterValidator =
    | IntRange(min: int, nullable: bool)
    | EnumValues(allowed: seq<string>, nullable: bool, allowExpressions: bool)
    | TypeOnly(expected: ModelType, nullable: bool, allowExpressions: bool)
  {
    predicate Nullable() { nullable }
    predicate AllowsExpressions() { !IntRange? && allowExpressions }
  }

  /** validateParameter of a built-in validator. */
  function Check(v: ParameterValidator, n: ModelNode): (r: Outcome<ValidationError>)
    ensures !n.IsDefined() ==> (r.Pass? <==> v.Nullable()) && (r.Fail? ==> r.error == Required)
    ensures n.ExpressionNode? ==> (r.Pass? <==> v.AllowsExpressions())
    ensures v.IntRange? && n.IntNode? ==> (r.Pass? <==> n.i >= v.min)
    ensures v.EnumValues? && n.StringNode? ==> (r.Pass? <==> n.s in v.allowed)
    ensures v.TypeOnly? && n.IsDefined() && !n.ExpressionNode? ==> (r.Pass? <==> n.GetType() == v.expected)
  {
    if !n.IsDefined() then
      (if v.nullable then Pass else Fail(Required))
    else if n.ExpressionNode? then
      (if v.AllowsExpressions() then Pass else Fail(ExpressionNotAllowed))
    else
      match v
      case IntRange(min, _) =>
        if !n.IntNode? then Fail(WrongType(INT))
        else if n.i < min then Fail(BelowMinimum(min))
        else Pass
      case EnumValues(allowed, _, _) =>
        if !n.StringNode? then Fail(WrongType(STRING))
        else if n.s !in allowed then Fail(NotAllowed(n.s))
        else Pass
      case TypeOnly(expected, _, _) =>
        if n.GetType() != expected then Fail(WrongType(expected)) else Pass
  }

  /** The value an attribute reads as: its default when the given value is undefined and a default exists. */
  function ResolveDefault(def: AttributeDefinition, n: ModelNode): (r: ModelNode)
    ensures n.IsDefined() ==> r == n
    ensures !n.IsDefined() && def.defaultValue.Some? ==> r == def.defaultValue.value
    ensures !n.IsDefined() && def.defaultValue.None? ==> !r.IsDefined()
  {
    if !n.IsDefined() && def.defaultValue.Some? then def.defaultValue.value else n
  }

  /**
   * Validation of an operation's value for an attribute, before expressions are
   * resolved: an undefined value is replaced by the default; an expression is
   * accepted unexamined when the attribute allows expressions; everything else
   * goes to the attribute's validator.
   */
  function ValidateOperationValue(def: AttributeDefinition, v: ParameterValidator, n: ModelNode): (r: Outcome<ValidationError>)
    // A defined value is judged as given: the default plays no part.
    ensures n.IsDefined() && !n.ExpressionNode? ==> r == Check(v, n)
    ensures n.ExpressionNode? ==> (r.Pass? <==> def.allowExpression || v.AllowsExpressions())
    // An undefined value without a default is judged by nullability alone.
    ensures !n.IsDefined() && def.defaultValue.None? ==> (r.Pass? <==> v.Nullable())
    ensures !n.IsDefined() && def.defaultValue.None? && r.Fail? ==> r.error == Required
  {
    var e := ResolveDefault(def, n);
    if e.ExpressionNode? && def.allowExpression then Pass else Check(v, e)
  }

  /** Leaving an attribute with a default undefined is the same as giving the default. */
  lemma DefaultStandsForUndefined(def: AttributeDefinition, v: ParameterValidator)
    requires def.defaultValue.Some? && def.defaultValue.value.IsDefined()
    ensures ValidateOperationValue(def, v, Undefined) == ValidateOperationValue(def, v, def.defaultValue.value)
  {
  }

  /**
   * Validation after resolution: the resolved value (resolve stands for
   * ModelNode.resolve) goes to the same validator.
   */
  function ValidateResolvedValue(def: AttributeDefinition, v: ParameterValidator, n: ModelNode,
                                 resolve: ModelNode -> ModelNode): (r: Outcome<ValidationError>)
    ensures var resolved := resolve(ResolveDefault(def, n));
              resolved.IsDefined() && !resolved.ExpressionNode? ==>
              r == ValidateOperationValue(def, v, resolve(ResolveDefault(def, n)))
  {
    Check(v, resolve(ResolveDefault(def, n)))
  }

  // ---------------------------------------------------------------------------
  // Registration of operations and attributes
  // ---------------------------------------------------------------------------

  datatype OperationDefinition = OperationDefinition(
    name: string, parameters: seq<string>, deprecatedSince: Option<ModelVersion>)

  datatype OperationEntry<H> = OperationEntry(definition: OperationDefinition, handler: H)

  /** How an attribute is registered: read-only, or read-write with its write handler. */
  datatype AttributeAccess<H> =
    | ReadOnly(definition: AttributeDefinition)
    | ReadWrite(definition: AttributeDefinition, writeHandler: H)

  /**
   * The registration of one resource type: its operations by name and its
   * attributes by name. H is the type of the handlers the resource uses.
   */
  class ManagementResourceRegistration<H> {
    var operations: map<string, OperationEntry<H>>
    var attributes: map<string, AttributeAccess<H>>

    constructor ()
      ensures operations == map[] && attributes == map[]
    {
      operations := map[];
      attributes := map[];
    }

    method RegisterOperationHandler(definition: OperationDefinition, handler: H)
      modifies this
      ensures operations == old(operations)[definition.name := OperationEntry(definition, handler)]
      ensures attributes == old(attributes)
    {
      operations := operations[definition.name := OperationEntry(definition, handler)];
    }

    method RegisterReadWriteAttribute(definition: AttributeDefinition, writeHandler: H)
      modifies this
      ensures attributes == old(attributes)[definition.name := ReadWrite(definition, writeHandler)]
      ensures operations == old(operations)
    {
      attributes := attributes[definition.name := ReadWrite(definition, writeHandler)];
    }

    method RegisterReadOnlyAttribute(definition: AttributeDefinition)
      modifies this
      ensures attributes == old(attributes)[definition.name := ReadOnly(definition)]
      ensures operations == old(operations)
    {
      attributes := attributes[definition.name := ReadOnly(definition)];
    }
  }
}
