/**
 * The logging subsystem's async-handler resource: the queue-length,
 * overflow-action and subhandlers attributes (validation, default and the
 * lower-case form the overflow action is written in), the attribute list the
 * resource registers, its four subhandler operations, and the attribute
 * transformation towards older model versions.
 */
module AsyncHandler {
  import opened Controller

  const ADD_SUBHANDLER_OPERATION_NAME: string := "assign-subhandler"
  const REMOVE_SUBHANDLER_OPERATION_NAME: string := "unassign-subhandler"
  const ASYNC_HANDLER: string := "async-handler"

  // Names shared by all logging handlers.
  const ADD_HANDLER_OPERATION_NAME: string := "add-handler"
  const REMOVE_HANDLER_OPERATION_NAME: string := "remove-handler"
  const ENABLED: string := "enabled"
  const LEVEL: string := "level"
  const FILTER_SPEC: string := "filter-spec"
  const FORMATTER: string := "formatter"
  const ENCODING: string := "encoding"
  const HANDLER_NAME: string := "name"

  const VERSION_1_2_0: ModelVersion := ModelVersion(1, 2, 0)
  const VERSION_1_3_0: ModelVersion := ModelVersion(1, 3, 0)

  // ---------------------------------------------------------------------------
  // Overflow action
  // ---------------------------------------------------------------------------

  /** What the asynchronous handler does when its queue is full. */
  datatype OverflowAction = BLOCK | DISCARD

  /** The enum constant's name. */
  function NameOf(a: OverflowAction): string
  {
    match a
    case BLOCK => "BLOCK"
    case DISCARD => "DISCARD"
  }

  const OVERFLOW_ACTION_NAMES: seq<string> := [NameOf(BLOCK), NameOf(DISCARD)]

  /** The constant with exactly the given name (Enum.valueOf), if there is one. */
  function OverflowActionNamed(s: string): (r: Option<OverflowAction>)
    ensures r.Some? ==> NameOf(r.value) == s
    ensures r.None? <==> s !in OVERFLOW_ACTION_NAMES
  {
    if s == "BLOCK" then Some(BLOCK)
    else if s == "DISCARD" then Some(DISCARD)
    else None
  }

  lemma NamesRoundTrip(a: OverflowAction)
    ensures OverflowActionNamed(NameOf(a)) == Some(a)
    ensures NameOf(a) in OVERFLOW_ACTION_NAMES
  {
  }

  // ---------------------------------------------------------------------------
  // Attribute definitions
  // ---------------------------------------------------------------------------

  const QUEUE_LENGTH: AttributeDefinition :=
    NewAttribute("queue-length", INT, false).(
      allowExpression := true,
      flags := {RESTART_RESOURCE_SERVICES})

  /** new IntRangeValidator(1, false): at least 1, not nullable. */
  const QUEUE_LENGTH_VALIDATOR: ParameterValidator := IntRange(1, false)

  const OVERFLOW_ACTION: AttributeDefinition :=
    NewAttribute("overflow-action", STRING, false).(
      allowExpression := true,
      defaultValue := Some(StringNode(NameOf(BLOCK))))

  /** EnumValidator.create(OverflowAction.class, false, false). */
  const OVERFLOW_ACTION_VALIDATOR: ParameterValidator := EnumValues(OVERFLOW_ACTION_NAMES, false, false)

  const SUBHANDLERS: AttributeDefinition :=
    NewAttribute("subhandlers", LIST, true).(allowExpression := false)

  /** The validator derived from the subhandlers attribute's own settings: a list, nullable, no expression. */
  const SUBHANDLERS_VALIDATOR: ParameterValidator :=
    TypeOnly(LIST, SUBHANDLERS.allowNull, SUBHANDLERS.allowExpression)

  function ValidateQueueLength(n: ModelNode): (r: Outcome<ValidationError>)
    ensures n.IntNode? ==> (r.Pass? <==> n.i >= 1)
    ensures n.IntNode? && n.i < 1 ==> r == Fail(BelowMinimum(1))
    ensures !n.IsDefined() ==> r == Fail(Required)
    ensures n.ExpressionNode? ==> r.Pass?
    ensures n.StringNode? || n.ListNode? ==> r == Fail(WrongType(INT))
  {
    ValidateOperationValue(QUEUE_LENGTH, QUEUE_LENGTH_VALIDATOR, n)
  }

  function ValidateResolvedQueueLength(n: ModelNode, resolve: ModelNode -> ModelNode): (r: Outcome<ValidationError>)
    ensures resolve(n).IntNode? ==> (r.Pass? <==> resolve(n).i >= 1)
    ensures resolve(n).ExpressionNode? ==> r == Fail(ExpressionNotAllowed)
  {
    ValidateResolvedValue(QUEUE_LENGTH, QUEUE_LENGTH_VALIDATOR, n, resolve)
  }

  function ValidateOverflowAction(n: ModelNode): (r: Outcome<ValidationError>)
    ensures !n.IsDefined() ==> r.Pass?
    ensures n.StringNode? ==> (r.Pass? <==> OverflowActionNamed(n.s).Some?)
    ensures n.ExpressionNode? ==> r.Pass?
    ensures n.IntNode? || n.ListNode? ==> r == Fail(WrongType(STRING))
  {
    ValidateOperationValue(OVERFLOW_ACTION, OVERFLOW_ACTION_VALIDATOR, n)
  }

  function ValidateResolvedOverflowAction(n: ModelNode, resolve: ModelNode -> ModelNode): (r: Outcome<ValidationError>)
    ensures n.IsDefined() && resolve(n).StringNode? ==> (r.Pass? <==> OverflowActionNamed(resolve(n).s).Some?)
    ensures n.IsDefined() && resolve(n).ExpressionNode? ==> r == Fail(ExpressionNotAllowed)
  {
    ValidateResolvedValue(OVERFLOW_ACTION, OVERFLOW_ACTION_VALIDATOR, n, resolve)
  }

  /** The overflow action a stored value stands for; an undefined value reads as the default. */
  function ReadOverflowAction(n: ModelNode): (r: Option<OverflowAction>)
    ensures !n.IsDefined() ==> r == Some(BLOCK)
    ensures n.StringNode? ==> r == OverflowActionNamed(n.s)
    ensures r.Some? ==> ResolveDefault(OVERFLOW_ACTION, n) == StringNode(NameOf(r.value))
  {
    match ResolveDefault(OVERFLOW_ACTION, n)
    case StringNode(s) => OverflowActionNamed(s)
    case _ => None
  }

  function ValidateSubhandlers(n: ModelNode): (r: Outcome<ValidationError>)
    ensures !n.IsDefined() ==> r.Pass?
    ensures n.ExpressionNode? ==> r == Fail(ExpressionNotAllowed)
    ensures n.IsDefined() && !n.ExpressionNode? ==> (r.Pass? <==> n.ListNode?)
  {
    ValidateOperationValue(SUBHANDLERS, SUBHANDLERS_VALIDATOR, n)
  }

  lemma ReadsAsBlockWhenUndefined()
    ensures ResolveDefault(OVERFLOW_ACTION, Undefined) == StringNode("BLOCK")
    ensures ValidateOverflowAction(Undefined) == Pass
    ensures ValidateQueueLength(Undefined) == Fail(Required)
  {
  }

  // ---------------------------------------------------------------------------
  // Lower-case marshalling of the overflow action
  // ---------------------------------------------------------------------------

  predicate IsUpperAscii(c: char) { 'A' <= c <= 'Z' }
  predicate IsLowerAscii(c: char) { 'a' <= c <= 'z' }

  function LowerChar(c: char): (d: char)
    ensures !IsUpperAscii(d)
  {
    if IsUpperAscii(c) then (c as int + 32) as char else c
  }

  function UpperChar(c: char): (d: char)
    ensures !IsLowerAscii(d)
  {
    if IsLowerAscii(c) then (c as int - 32) as char else c
  }

  /** String.toLowerCase(Locale.ENGLISH) on ASCII letters. */
  function ToLowerCase(s: string): (r: string)
    ensures |r| == |s|
    ensures forall k :: 0 <= k < |s| ==> r[k] == LowerChar(s[k])
  {
    if s == [] then [] else [LowerChar(s[0])] + ToLowerCase(s[1..])
  }

  function ToUpperCase(s: string): (r: string)
    ensures |r| == |s|
    ensures forall k :: 0 <= k < |s| ==> r[k] == UpperChar(s[k])
  {
    if s == [] then [] else [UpperChar(s[0])] + ToUpperCase(s[1..])
  }

  /** Upper-casing undoes lower-casing on a text with no lower-case ASCII letter. */
  lemma {:induction false} UpperUndoesLower(s: string)
    requires forall k :: 0 <= k < |s| ==> !IsLowerAscii(s[k])
    ensures ToUpperCase(ToLowerCase(s)) == s
  {
    if s != [] {
      UpperUndoesLower(s[1..]);
      assert ToLowerCase(s) == [LowerChar(s[0])] + ToLowerCase(s[1..]);
    }
  }

  /** Lower-casing twice is lower-casing once. */
  lemma {:induction false} LowerIdempotent(s: string)
    ensures ToLowerCase(ToLowerCase(s)) == ToLowerCase(s)
  {
    if s != [] {
      LowerIdempotent(s[1..]);
      assert ToLowerCase(s) == [LowerChar(s[0])] + ToLowerCase(s[1..]);
    }
  }

  /** The element the marshaller writes: its name and the content of its value attribute. */
  datatype ValueElement = ValueElement(element: string, value: string)

  /**
   * marshallAsElement of the overflow-action attribute: when the attribute is
   * marshallable (a decision the framework makes), an element named after the
   * attribute whose value is the stored text in lower case; otherwise nothing.
   */
  function MarshallOverflowAction(resourceModel: map<string, ModelNode>, marshallable: bool): (r: Option<ValueElement>)
    ensures r.Some? <==> marshallable
    ensures r.Some? ==> r.value.element == OVERFLOW_ACTION.name
    // The written text is the stored text (or "undefined"), lower-cased character by character.
    ensures r.Some? ==>
              var stored := if OVERFLOW_ACTION.name in resourceModel then resourceModel[OVERFLOW_ACTION.name] else Undefined;
              |r.value.value| == |AsString(stored)| &&
              forall k :: 0 <= k < |r.value.value| ==> r.value.value[k] == LowerChar(AsString(stored)[k])
  {
    if marshallable then
      var stored := if OVERFLOW_ACTION.name in resourceModel then resourceModel[OVERFLOW_ACTION.name] else Undefined;
      var content := ToLowerCase(AsString(stored));
      Some(ValueElement(OVERFLOW_ACTION.name, content))
    else
      None
  }

  /** Whatever is stored, the written text has no upper-case ASCII letter and lower-casing it again changes nothing. */
  lemma MarshalledTextIsLowerCase(resourceModel: map<string, ModelNode>)
    ensures var r := MarshallOverflowAction(resourceModel, true);
            r.Some? &&
            (forall k :: 0 <= k < |r.value.value| ==> !IsUpperAscii(r.value.value[k])) &&
            ToLowerCase(r.value.value) == r.value.value
  {
    var stored := if OVERFLOW_ACTION.name in resourceModel then resourceModel[OVERFLOW_ACTION.name] else Undefined;
    LowerIdempotent(AsString(stored));
  }

  /**
   * A stored overflow action is written as its name in lower case, and
   * upper-casing what was written gives back the constant.
   */
  lemma MarshalledActionRoundTrip(resourceModel: map<string, ModelNode>, a: OverflowAction)
    requires OVERFLOW_ACTION.name in resourceModel
    requires resourceModel[OVERFLOW_ACTION.name] == StringNode(NameOf(a))
    ensures MarshallOverflowAction(resourceModel, true).Some?
    ensures MarshallOverflowAction(resourceModel, true).value.value == (if a == BLOCK then "block" else "discard")
    ensures OverflowActionNamed(ToUpperCase(MarshallOverflowAction(resourceModel, true).value.value)) == Some(a)
  {
    assert AsString(resourceModel[OVERFLOW_ACTION.name]) == NameOf(a);
    assert MarshallOverflowAction(resourceModel, true) == Some(ValueElement(OVERFLOW_ACTION.name, ToLowerCase(NameOf(a))));
    LowerCaseNames(a);
    UpperUndoesLower(NameOf(a));
  }

  /**
   * Names are matched exactly: the lower-case text the marshaller writes is not
   * itself a valid value until it is upper-cased again.
   */
  lemma WrittenTextNeedsUpperCasing(a: OverflowAction)
    ensures ValidateOverflowAction(StringNode(ToLowerCase(NameOf(a)))).Fail?
    ensures ValidateOverflowAction(StringNode(ToUpperCase(ToLowerCase(NameOf(a))))) == Pass
  {
    LowerCaseNamesAreNoNames(a);
    UpperUndoesLower(NameOf(a));
    NamesRoundTrip(a);
  }

  /** Neither lower-cased name is itself a constant's name. */
  lemma LowerCaseNamesAreNoNames(a: OverflowAction)
    ensures OverflowActionNamed(ToLowerCase(NameOf(a))).None?
  {
    LowerCaseNames(a);
    assert "block"[0] != 'B' && "discard"[0] != 'D';
  }

  /** The constants' names in lower case. */
  lemma LowerCaseNames(a: OverflowAction)
    ensures ToLowerCase(NameOf(a)) == (if a == BLOCK then "block" else "discard")
  {
    var written := ToLowerCase(NameOf(a));
    if a == DISCARD {
      assert written[0] == 'd' && written[1] == 'i' && written[2] == 's' && written[3] == 'c';
    }
  }

  // ---------------------------------------------------------------------------
  // The resource definition and its attribute list
  // ---------------------------------------------------------------------------

  const ATTRIBUTES: seq<string> :=
    [ENABLED, LEVEL, FILTER_SPEC, QUEUE_LENGTH.name, OVERFLOW_ACTION.name, SUBHANDLERS.name]

  /** The attributes the resource registers: ATTRIBUTES, followed by the legacy attributes when they are included. */
  function HandlerAttributes(includeLegacyAttributes: bool, legacyAttributes: seq<string>): (r: seq<string>)
    ensures |r| >= |ATTRIBUTES| && r[..|ATTRIBUTES|] == ATTRIBUTES
    ensures includeLegacyAttributes ==> r[|ATTRIBUTES|..] == legacyAttributes
    ensures !includeLegacyAttributes ==> r == ATTRIBUTES
    ensures forall x :: x in r <==> x in ATTRIBUTES || (includeLegacyAttributes && x in legacyAttributes)
  {
    if includeLegacyAttributes then ATTRIBUTES + legacyAttributes else ATTRIBUTES
  }

  /** The handler operations the four operation names dispatch to. */
  datatype HandlerOperation = ADD_SUBHANDLER | REMOVE_SUBHANDLER

  function SubhandlerOperation(name: string, deprecatedSince: Option<ModelVersion>, handler: HandlerOperation): OperationEntry<HandlerOperation>
  {
    OperationEntry(OperationDefinition(name, [HANDLER_NAME], deprecatedSince), handler)
  }

  /** The operations registerOperations adds, by name. */
  function SubhandlerOperations(): (r: map<string, OperationEntry<HandlerOperation>>)
    ensures r.Keys == {ADD_SUBHANDLER_OPERATION_NAME, REMOVE_SUBHANDLER_OPERATION_NAME,
                       ADD_HANDLER_OPERATION_NAME, REMOVE_HANDLER_OPERATION_NAME}
    ensures forall name :: name in r ==> r[name].definition.name == name
  {
    map[
      ADD_SUBHANDLER_OPERATION_NAME := SubhandlerOperation(ADD_SUBHANDLER_OPERATION_NAME, Some(VERSION_1_2_0), ADD_SUBHANDLER),
      REMOVE_SUBHANDLER_OPERATION_NAME := SubhandlerOperation(REMOVE_SUBHANDLER_OPERATION_NAME, Some(VERSION_1_2_0), REMOVE_SUBHANDLER),
      ADD_HANDLER_OPERATION_NAME := SubhandlerOperation(ADD_HANDLER_OPERATION_NAME, None, ADD_SUBHANDLER),
      REMOVE_HANDLER_OPERATION_NAME := SubhandlerOperation(REMOVE_HANDLER_OPERATION_NAME, None, REMOVE_SUBHANDLER)
    ]
  }

  /** The old and new names of each operation dispatch to the same handler. */
  lemma AliasesShareHandlers()
    ensures SubhandlerOperations().Keys ==
              {ADD_SUBHANDLER_OPERATION_NAME, REMOVE_SUBHANDLER_OPERATION_NAME,
               ADD_HANDLER_OPERATION_NAME, REMOVE_HANDLER_OPERATION_NAME}
    ensures SubhandlerOperations()[ADD_SUBHANDLER_OPERATION_NAME].handler ==
            SubhandlerOperations()[ADD_HANDLER_OPERATION_NAME].handler == ADD_SUBHANDLER
    ensures SubhandlerOperations()[REMOVE_SUBHANDLER_OPERATION_NAME].handler ==
            SubhandlerOperations()[REMOVE_HANDLER_OPERATION_NAME].handler == REMOVE_SUBHANDLER
  {
  }

  /** Every operation is registered under its own name and takes exactly the handler-name parameter. */
  lemma OperationsTakeHandlerName(name: string)
    requires name in SubhandlerOperations()
    ensures SubhandlerOperations()[name].definition.name == name
    ensures SubhandlerOperations()[name].definition.parameters == [HANDLER_NAME]
  {
  }

  /** Only the two subhandler names are deprecated, both since 1.2.0. */
  lemma OnlySubhandlerNamesDeprecated(name: string)
    requires name in SubhandlerOperations()
    ensures SubhandlerOperations()[name].definition.deprecatedSince.Some? <==>
              name == ADD_SUBHANDLER_OPERATION_NAME || name == REMOVE_SUBHANDLER_OPERATION_NAME
    ensures SubhandlerOperations()[name].definition.deprecatedSince.Some? ==>
              SubhandlerOperations()[name].definition.deprecatedSince.value == VERSION_1_2_0
  {
  }

  // ---------------------------------------------------------------------------
  // Transformation towards older model versions
  // ---------------------------------------------------------------------------

  /** The attributes discarded unconditionally when transforming to the given model version. */
  function DiscardedFor(modelVersion: ModelVersion): (r: seq<string>)
    ensures r != [] <==> modelVersion == VERSION_1_3_0
    // Only the legacy formatter and encoding are ever discarded, never one of the handler's own attributes.
    ensures forall x :: x in r ==> (x == FORMATTER || x == ENCODING) && x !in ATTRIBUTES
  {
    if modelVersion == VERSION_1_3_0 then [FORMATTER, ENCODING] else []
  }

  /**
   * Applies the discard rules in the order they were declared: each one removes
   * its attribute whatever its value; nothing else changes.
   */
  function Transform(discarded: seq<string>, attributes: map<string, ModelNode>): (r: map<string, ModelNode>)
    ensures r.Keys == attributes.Keys - set x | x in discarded
    ensures forall k :: k in r ==> r[k] == attributes[k]
  {
    if discarded == [] then attributes
    else Transform(discarded[1..], attributes - {discarded[0]})
  }

  /** The transformation of an async-handler's attributes for a peer on the given model version. */
  function TransformToVersion(modelVersion: ModelVersion, attributes: map<string, ModelNode>): (r: map<string, ModelNode>)
    ensures r.Keys <= attributes.Keys
    ensures forall k :: k in r ==> r[k] == attributes[k]
    ensures forall k :: k in attributes && k in ATTRIBUTES ==> k in r
    ensures modelVersion != VERSION_1_3_0 ==> r == attributes
  {
    Transform(DiscardedFor(modelVersion), attributes)
  }

  lemma TransformTo130(attributes: map<string, ModelNode>)
    ensures var r := TransformToVersion(VERSION_1_3_0, attributes);
      && FORMATTER !in r && ENCODING !in r
      && r.Keys == attributes.Keys - {FORMATTER, ENCODING}
      && forall k :: k in r ==> r[k] == attributes[k]
  {
    assert (set x | x in [FORMATTER, ENCODING]) == {FORMATTER, ENCODING};
  }

  lemma TransformToOtherVersions(modelVersion: ModelVersion, attributes: map<string, ModelNode>)
    requires modelVersion != VERSION_1_3_0
    ensures TransformToVersion(modelVersion, attributes) == attributes
  {
  }

  /** Transforming what was already transformed changes nothing more. */
  lemma TransformIdempotent(modelVersion: ModelVersion, attributes: map<string, ModelNode>)
    ensures TransformToVersion(modelVersion, TransformToVersion(modelVersion, attributes)) ==
            TransformToVersion(modelVersion, attributes)
  {
  }

  /** The attribute part of a resource's transformation description, as the builder accumulates it. */
  class AttributeTransformationBuilder {
    var discardedAlways: seq<string>
    /** Only records that end() was called; in the builder API end() hands back the enclosing builder and adds no rule. */
    var ended: bool

    constructor ()
      ensures discardedAlways == [] && !ended
    {
      discardedAlways := [];
      ended := false;
    }

    /** setDiscard(DiscardAttributeChecker.ALWAYS, names...). */
    method SetDiscardAlways(names: seq<string>)
      modifies this
      ensures discardedAlways == old(discardedAlways) + names
      ensures ended == old(ended)
    {
      discardedAlways := discardedAlways + names;
    }

    method End()
      modifies this
      ensures ended
      ensures discardedAlways == old(discardedAlways)
    {
      ended := true;
    }

    /** The transformation this description gives. */
    function TransformAttributes(attributes: map<string, ModelNode>): map<string, ModelNode>
      reads this
    {
      Transform(discardedAlways, attributes)
    }
  }

  /** An async-handler resource definition: its path, its registered attributes and the property passed to the handler's constructor. */
  class AsyncHandlerResourceDefinition {
    const pathKey: string
    const attributes: seq<string>
    const constructionProperties: seq<string>

    constructor (includeLegacyAttributes: bool, legacyAttributes: seq<string>)
      ensures pathKey == ASYNC_HANDLER
      ensures attributes == HandlerAttributes(includeLegacyAttributes, legacyAttributes)
      ensures constructionProperties == [QUEUE_LENGTH.name]
    {
      pathKey := ASYNC_HANDLER;
      attributes := HandlerAttributes(includeLegacyAttributes, legacyAttributes);
      constructionProperties := [QUEUE_LENGTH.name];
    }

    /** Registers the two deprecated subhandler operations and their two current aliases. */
    method RegisterOperations(registration: ManagementResourceRegistration<HandlerOperation>)
      modifies registration
      ensures registration.operations == old(registration.operations) + SubhandlerOperations()
      ensures registration.attributes == old(registration.attributes)
    {
      registration.RegisterOperationHandler(
        OperationDefinition(ADD_SUBHANDLER_OPERATION_NAME, [HANDLER_NAME], Some(VERSION_1_2_0)), ADD_SUBHANDLER);
      registration.RegisterOperationHandler(
        OperationDefinition(REMOVE_SUBHANDLER_OPERATION_NAME, [HANDLER_NAME], Some(VERSION_1_2_0)), REMOVE_SUBHANDLER);
      registration.RegisterOperationHandler(
        OperationDefinition(ADD_HANDLER_OPERATION_NAME, [HANDLER_NAME], None), ADD_SUBHANDLER);
      registration.RegisterOperationHandler(
        OperationDefinition(REMOVE_HANDLER_OPERATION_NAME, [HANDLER_NAME], None), REMOVE_SUBHANDLER);
    }

    /** Adds the rules for the given model version to the attribute builder and ends it. */
    method RegisterResourceTransformers(modelVersion: ModelVersion, attributeBuilder: AttributeTransformationBuilder)
      modifies attributeBuilder
      ensures attributeBuilder.discardedAlways == old(attributeBuilder.discardedAlways) + DiscardedFor(modelVersion)
      ensures attributeBuilder.ended
    {
      if modelVersion == VERSION_1_3_0 {
        attributeBuilder.SetDiscardAlways([FORMATTER, ENCODING]);
      }
      attributeBuilder.End();
    }
  }

  /** Registering the transformers on a fresh builder yields exactly the version's transformation. */
  method TransformersOfFreshBuilder(d: AsyncHandlerResourceDefinition, modelVersion: ModelVersion, attributes: map<string, ModelNode>)
    returns (r: map<string, ModelNode>)
    ensures r == TransformToVersion(modelVersion, attributes)
  {
    var builder := new AttributeTransformationBuilder();
    d.RegisterResourceTransformers(modelVersion, builder);
    r := builder.TransformAttributes(attributes);
  }
}
