# Management-model rules of three resources, in Dafny

This project models three small parts of the server's management layer and
proves what they promise:

- **The logging subsystem's `async-handler` resource** (`async_handler.dfy`,
  module `AsyncHandler`). It covers the `queue-length`, `overflow-action` and
  `subhandlers` attributes: how each is validated, the `BLOCK` default, and the
  lower-case text the overflow action is written in. It also covers the
  attribute list the resource registers (with or without the legacy
  attributes), and the four subhandler operations. Two of those are deprecated
  names and two are current aliases, each pair sharing one handler. Last, it
  covers the attribute transformation for older model versions: version 1.3.0
  discards `formatter` and `encoding` unconditionally, and every other version
  changes nothing. The transformation is a pure function of a version-keyed
  table. The builder that the resource fills for it is a class.
- **The RBAC test resource `ConstrainedResource`** (`constrained_resource.dfy`,
  module `ConstrainedResource`). It covers the `jndi-name` validator with its
  ordered error cases: required, then prefix, then slashes. Expressions skip
  the check and are checked again once resolved. It also covers the
  sensitivity constraints on each attribute and the `data-source-security`
  classification. It covers which attributes are registered read-write and
  which read-only, the add handler's attributes, and a write handler with no
  runtime effect.
- **`RootDeploymentUnitService`** (`deployment.dfy`, module `Deployment`). It
  covers the service object with its three injection slots and the creation of
  a deployment unit whose attachment bag gets exactly eleven keys. The slots
  are read in source order, and an empty one aborts the creation.

`controller.dfy` (module `Controller`) holds the framework types the three
share. These are detyped values (`ModelNode`) and their text form, model
versions, attribute definitions, the built-in validators and the validation
order assumed for them. It also holds access-constraint tags and the registration
table (`ManagementResourceRegistration`) that resources fill with operations
and attributes.

`jndi-name` is declared optional (ConstrainedResource.java:76), yet its own
validator rejects an undefined value as required (ConstrainedResource.java:91-92).
The model keeps that rejection (`ValidateJndiName`).

A value of type INT holds a 32-bit Java `int`: `ModelNode.IntNode` carries an
`Int32`, so `queue-length` ranges over 1 to 2147483647.

## Model

| member | source | states |
|---|---|---|
| `Controller.ModelNode.GetType` | testsuite/rbac/src/test/java/org/jboss/as/test/integration/mgmt/access/extension/ConstrainedResource.java:82-83 | a value's type is UNDEFINED exactly when it is undefined, and EXPRESSION exactly when it is an expression |
| `Controller.NewAttribute` | testsuite/rbac/src/test/java/org/jboss/as/test/integration/mgmt/access/extension/ConstrainedResource.java:57 | a builder starts from a name, a type and optionality, with no expressions, no default, no flags, no group and no constraints |
| `Controller.Check` | logging/src/main/java/org/jboss/as/logging/AsyncHandlerResourceDefinition.java:71-90 | an undefined value passes only a nullable validator (else Required); an expression passes only a validator that allows expressions; an int passes a range validator iff it is at least the minimum; a string passes an enum validator iff it is one of the member names; a type validator accepts exactly its type |
| `Controller.ResolveDefault` | logging/src/main/java/org/jboss/as/logging/AsyncHandlerResourceDefinition.java:87 | a defined value reads as itself; an undefined value reads as the default if there is one, else stays undefined |
| `Controller.ValidateOperationValue` | logging/src/main/java/org/jboss/as/logging/AsyncHandlerResourceDefinition.java:66-90 | a defined non-expression value gets exactly the validator's verdict, whatever the default; an expression passes iff the attribute or the validator allows expressions; an undefined value without a default passes iff the validator is nullable, and otherwise fails as Required |
| `Controller.DefaultStandsForUndefined` | logging/src/main/java/org/jboss/as/logging/AsyncHandlerResourceDefinition.java:87 | leaving an attribute that has a default undefined gets the same verdict as giving the default explicitly |
| `Controller.AsString` | testsuite/rbac/src/test/java/org/jboss/as/test/integration/mgmt/access/extension/ConstrainedResource.java:84 | a string's text is the string itself and an expression's text is its unresolved text; an int's text starts with '-' iff it is negative; a list's text is bracketed |
| `Controller.ValidateResolvedValue` | logging/src/main/java/org/jboss/as/logging/AsyncHandlerResourceDefinition.java:66-71 | a resolved value that is defined and not an expression gets the same verdict as the pre-resolution check would give it |
| `Controller.ManagementResourceRegistration.RegisterOperationHandler` | logging/src/main/java/org/jboss/as/logging/AsyncHandlerResourceDefinition.java:109-112 | the operation table maps the definition's name to the definition and its handler; attributes are untouched |
| `Controller.ManagementResourceRegistration.RegisterReadWriteAttribute` | testsuite/rbac/src/test/java/org/jboss/as/test/integration/mgmt/access/extension/ConstrainedResource.java:120 | the attribute table maps the name to a read-write entry with its write handler; operations are untouched |
| `Controller.ManagementResourceRegistration.RegisterReadOnlyAttribute` | testsuite/rbac/src/test/java/org/jboss/as/test/integration/mgmt/access/extension/ConstrainedResource.java:121-122 | the attribute table maps the name to a read-only entry; operations are untouched |
| `AsyncHandler.OverflowActionNamed` | logging/src/main/java/org/jboss/as/logging/AsyncHandlerResourceDefinition.java:90 | a name gives a constant iff it is one of the member names, and the constant found has exactly that name |
| `AsyncHandler.NamesRoundTrip` | logging/src/main/java/org/jboss/as/logging/AsyncHandlerResourceDefinition.java:90 | looking up a constant's name gives back the constant, and every name is among the validator's allowed names |
| `AsyncHandler.ValidateQueueLength` | logging/src/main/java/org/jboss/as/logging/AsyncHandlerResourceDefinition.java:66-72 | an integer n validates iff n >= 1 (else BelowMinimum(1)); undefined is rejected as Required; a string or list is the wrong type; an expression passes the syntactic check |
| `AsyncHandler.ValidateResolvedQueueLength` | logging/src/main/java/org/jboss/as/logging/AsyncHandlerResourceDefinition.java:66-71 | a resolved integer validates iff it is at least 1; a value that still resolves to an expression is rejected |
| `AsyncHandler.ValidateOverflowAction` | logging/src/main/java/org/jboss/as/logging/AsyncHandlerResourceDefinition.java:74-90 | undefined passes (it reads as the default); a string passes iff it names an OverflowAction constant; an int or list is the wrong type; an expression passes the syntactic check |
| `AsyncHandler.ValidateResolvedOverflowAction` | logging/src/main/java/org/jboss/as/logging/AsyncHandlerResourceDefinition.java:87-90 | a resolved string passes iff it names a constant; a value that still resolves to an expression is rejected, since the enum validator allows none |
| `AsyncHandler.ReadOverflowAction` | logging/src/main/java/org/jboss/as/logging/AsyncHandlerResourceDefinition.java:87-90 | undefined reads as BLOCK; a string reads as the constant it names, if any; whatever is read is the name the stored or default value holds |
| `AsyncHandler.ValidateSubhandlers` | logging/src/main/java/org/jboss/as/logging/AsyncHandlerResourceDefinition.java:93-96 | undefined passes (nullable); an expression is rejected; any other value passes iff it is a list |
| `AsyncHandler.ReadsAsBlockWhenUndefined` | logging/src/main/java/org/jboss/as/logging/AsyncHandlerResourceDefinition.java:66-90 | an undefined overflow-action reads as "BLOCK" and validates; an undefined queue-length fails as Required |
| `AsyncHandler.ToLowerCase` | logging/src/main/java/org/jboss/as/logging/AsyncHandlerResourceDefinition.java:81 | the result has the input's length and lower-cases each ASCII letter in place, leaving other characters alone |
| `AsyncHandler.UpperUndoesLower` | logging/src/main/java/org/jboss/as/logging/AsyncHandlerResourceDefinition.java:81 | on a text without lower-case ASCII letters, upper-casing the lower-cased text gives the text back |
| `AsyncHandler.LowerIdempotent` | logging/src/main/java/org/jboss/as/logging/AsyncHandlerResourceDefinition.java:81 | lower-casing twice equals lower-casing once |
| `AsyncHandler.MarshallOverflowAction` | logging/src/main/java/org/jboss/as/logging/AsyncHandlerResourceDefinition.java:79-84 | an element is written iff the attribute is marshallable; it is named after the attribute; its value is the stored text (or "undefined" when nothing is stored), lower-cased character by character, keeping the stored text's length |
| `AsyncHandler.MarshalledTextIsLowerCase` | logging/src/main/java/org/jboss/as/logging/AsyncHandlerResourceDefinition.java:81 | whatever is stored, the written text has no upper-case ASCII letter and is already in lower case |
| `AsyncHandler.LowerCaseNames` | logging/src/main/java/org/jboss/as/logging/AsyncHandlerResourceDefinition.java:81 | BLOCK lower-cases to "block" and DISCARD to "discard" |
| `AsyncHandler.WrittenTextNeedsUpperCasing` | logging/src/main/java/org/jboss/as/logging/AsyncHandlerResourceDefinition.java:81-90 | the lower-case text written for a constant fails the exact-name enum validator, and passes once upper-cased |
| `AsyncHandler.MarshalledActionRoundTrip` | logging/src/main/java/org/jboss/as/logging/AsyncHandlerResourceDefinition.java:79-90 | a stored constant is written as "block" or "discard", and upper-casing what was written names the same constant |
| `AsyncHandler.HandlerAttributes` | logging/src/main/java/org/jboss/as/logging/AsyncHandlerResourceDefinition.java:98-102 | the registered list starts with ATTRIBUTES; the legacy attributes follow iff they are included; membership is exactly ATTRIBUTES plus, when included, the legacy ones |
| `AsyncHandler.AsyncHandlerResourceDefinition.constructor` | logging/src/main/java/org/jboss/as/logging/AsyncHandlerResourceDefinition.java:101-103 | the definition is at the async-handler path, registers HandlerAttributes for the flag, and passes queue-length to the handler's constructor |
| `AsyncHandler.AsyncHandlerResourceDefinition.RegisterOperations` | logging/src/main/java/org/jboss/as/logging/AsyncHandlerResourceDefinition.java:106-126 | the operation table gains exactly the four subhandler operations; attributes are untouched |
| `AsyncHandler.SubhandlerOperations` | logging/src/main/java/org/jboss/as/logging/AsyncHandlerResourceDefinition.java:109-125 | the table has exactly the four operation names, and each entry's definition carries the name it is filed under |
| `AsyncHandler.AliasesShareHandlers` | logging/src/main/java/org/jboss/as/logging/AsyncHandlerResourceDefinition.java:109-125 | exactly four names are registered; assign-subhandler and add-handler dispatch to ADD_SUBHANDLER; unassign-subhandler and remove-handler dispatch to REMOVE_SUBHANDLER |
| `AsyncHandler.OperationsTakeHandlerName` | logging/src/main/java/org/jboss/as/logging/AsyncHandlerResourceDefinition.java:109-125 | every registered operation carries its own name and takes exactly the handler-name parameter |
| `AsyncHandler.OnlySubhandlerNamesDeprecated` | logging/src/main/java/org/jboss/as/logging/AsyncHandlerResourceDefinition.java:109-117 | an operation is deprecated iff it is assign-subhandler or unassign-subhandler, and then since 1.2.0 |
| `AsyncHandler.DiscardedFor` | logging/src/main/java/org/jboss/as/logging/AsyncHandlerResourceDefinition.java:131-138 | some attribute is discarded iff the version is 1.3.0; only formatter and encoding are ever discarded, never one of the handler's own attributes |
| `AsyncHandler.TransformToVersion` | logging/src/main/java/org/jboss/as/logging/AsyncHandlerResourceDefinition.java:129-140 | the transformed map keeps a subset of the keys, each with its value; the handler's own attributes always survive; any version other than 1.3.0 leaves the map as it is |
| `AsyncHandler.Transform` | logging/src/main/java/org/jboss/as/logging/AsyncHandlerResourceDefinition.java:131-139 | applying the discard rules in order leaves exactly the keys not discarded, each with its original value |
| `AsyncHandler.TransformTo130` | logging/src/main/java/org/jboss/as/logging/AsyncHandlerResourceDefinition.java:132-136 | towards 1.3.0, formatter and encoding are gone whatever their values, and every other attribute keeps its value |
| `AsyncHandler.TransformToOtherVersions` | logging/src/main/java/org/jboss/as/logging/AsyncHandlerResourceDefinition.java:131-139 | towards any other version the attribute map is unchanged |
| `AsyncHandler.TransformIdempotent` | logging/src/main/java/org/jboss/as/logging/AsyncHandlerResourceDefinition.java:135 | transforming a transformed map again changes nothing |
| `AsyncHandler.AttributeTransformationBuilder.SetDiscardAlways` | logging/src/main/java/org/jboss/as/logging/AsyncHandlerResourceDefinition.java:135 | the given names are appended to the unconditional discard rules |
| `AsyncHandler.AttributeTransformationBuilder.End` | logging/src/main/java/org/jboss/as/logging/AsyncHandlerResourceDefinition.java:139 | the builder is ended and its rules are unchanged |
| `AsyncHandler.AsyncHandlerResourceDefinition.RegisterResourceTransformers` | logging/src/main/java/org/jboss/as/logging/AsyncHandlerResourceDefinition.java:129-140 | the builder gains exactly the version's discard rules (formatter and encoding for 1.3.0, none otherwise) and is ended |
| `AsyncHandler.TransformersOfFreshBuilder` | logging/src/main/java/org/jboss/as/logging/AsyncHandlerResourceDefinition.java:129-140 | a fresh builder filled for a version transforms attributes exactly as the version-keyed table says |
| `ConstrainedResource.ContainsIff` | testsuite/rbac/src/test/java/org/jboss/as/test/integration/mgmt/access/extension/ConstrainedResource.java:87 | the recursive contains holds iff the part occurs at some position |
| `ConstrainedResource.DoubleSlashIff` | testsuite/rbac/src/test/java/org/jboss/as/test/integration/mgmt/access/extension/ConstrainedResource.java:87 | a text contains "//" iff two adjacent characters are both slashes |
| `ConstrainedResource.ValidateJndiName` | testsuite/rbac/src/test/java/org/jboss/as/test/integration/mgmt/access/extension/ConstrainedResource.java:81-94 | undefined fails with the "required" message; an expression passes unexamined; any other value passes iff its text has one of the two prefixes, no trailing slash and no double slash; failures carry one of the three messages |
| `ConstrainedResource.ValidateResolvedJndiName` | testsuite/rbac/src/test/java/org/jboss/as/test/integration/mgmt/access/extension/ConstrainedResource.java:97-99 | a value that resolves to undefined fails as required; one that resolves to a string passes iff the string is well formed |
| `ConstrainedResource.BadPrefixReportedFirst` | testsuite/rbac/src/test/java/org/jboss/as/test/integration/mgmt/access/extension/ConstrainedResource.java:85-86 | a string without either prefix fails with the prefix message, whatever its slashes |
| `ConstrainedResource.SlashRuleAfterPrefix` | testsuite/rbac/src/test/java/org/jboss/as/test/integration/mgmt/access/extension/ConstrainedResource.java:87-88 | a string with a good prefix and a trailing or double slash fails with the slash message |
| `ConstrainedResource.BarePrefixesRejected` | testsuite/rbac/src/test/java/org/jboss/as/test/integration/mgmt/access/extension/ConstrainedResource.java:85-88 | "java:/" and "java:jboss/" alone fail by the trailing-slash rule, while "java:/jdbc/ExampleDS" passes |
| `ConstrainedResource.ResolutionRechecks` | testsuite/rbac/src/test/java/org/jboss/as/test/integration/mgmt/access/extension/ConstrainedResource.java:81-99 | an expression passes the first check yet fails once it resolves to a bare prefix; a plain value that resolves to itself gets the same verdict twice |
| `ConstrainedResource.DsSecurityClassification` | testsuite/rbac/src/test/java/org/jboss/as/test/integration/mgmt/access/extension/ConstrainedResource.java:54 | DS_SECURITY is ("rbac", "data-source-security") with access not sensitive and read and write sensitive by default |
| `ConstrainedResource.AttributeConstraints` | testsuite/rbac/src/test/java/org/jboss/as/test/integration/mgmt/access/extension/ConstrainedResource.java:57-76 | password carries exactly {CREDENTIAL, DS_SECURITY}; security-domain exactly {SECURITY_DOMAIN_REF, DS_SECURITY}; new-connection-sql and jndi-name none |
| `ConstrainedResource.ApplyUpdateToRuntime` | testsuite/rbac/src/test/java/org/jboss/as/test/integration/mgmt/access/extension/ConstrainedResource.java:132-135 | applying a write reports no reload required and leaves the runtime as it was |
| `ConstrainedResource.RevertUpdateToRuntime` | testsuite/rbac/src/test/java/org/jboss/as/test/integration/mgmt/access/extension/ConstrainedResource.java:137-140 | reverting leaves the runtime as it was |
| `ConstrainedResource.RevertAfterApplyRestores` | testsuite/rbac/src/test/java/org/jboss/as/test/integration/mgmt/access/extension/ConstrainedResource.java:132-140 | applying a write and then reverting it restores the runtime exactly |
| `ConstrainedResource.ConstrainedAttributes` | testsuite/rbac/src/test/java/org/jboss/as/test/integration/mgmt/access/extension/ConstrainedResource.java:117-124 | the table holds exactly password, security-domain, jndi-name and new-connection-sql, each filed under its own name |
| `ConstrainedResource.WritableAttributes` | testsuite/rbac/src/test/java/org/jboss/as/test/integration/mgmt/access/extension/ConstrainedResource.java:117-124 | an attribute is read-write iff it is password or new-connection-sql; each entry is registered under its own name; each write handler is built for the attribute it is registered with |
| `ConstrainedResource.DataSourceSecurityCoverage` | testsuite/rbac/src/test/java/org/jboss/as/test/integration/mgmt/access/extension/ConstrainedResource.java:54-76 | the four attributes are registered; DS_SECURITY guards exactly password and security-domain, CREDENTIAL only password, SECURITY_DOMAIN_REF only security-domain |
| `ConstrainedResource.ConstrainedResourceDefinition.constructor` | testsuite/rbac/src/test/java/org/jboss/as/test/integration/mgmt/access/extension/ConstrainedResource.java:105-110 | the definition keeps its path element, adds with password and security-domain, removes with reload required, and carries the ("rbac", "datasource") application-type constraint |
| `ConstrainedResource.ConstrainedResourceDefinition.GetAccessConstraints` | testsuite/rbac/src/test/java/org/jboss/as/test/integration/mgmt/access/extension/ConstrainedResource.java:112-115 | the resource's constraints are exactly one: the ("rbac", "datasource") application type |
| `ConstrainedResource.ConstrainedResourceDefinition.RegisterAttributes` | testsuite/rbac/src/test/java/org/jboss/as/test/integration/mgmt/access/extension/ConstrainedResource.java:117-124 | the attribute table gains exactly the four entries; operations are untouched |
| `ConstrainedResource.AddHandlerPopulatesSecurityAttributes` | testsuite/rbac/src/test/java/org/jboss/as/test/integration/mgmt/access/extension/ConstrainedResource.java:107 | the add handler's attributes are exactly password and security-domain, both constrained and in the security group |
| `Deployment.DeploymentUnit.constructor` | server/src/main/java/org/jboss/as/server/deployment/RootDeploymentUnitService.java:80 | a new unit has the given parent, name and registry and no attachments |
| `Deployment.DeploymentUnit.PutAttachment` | server/src/main/java/org/jboss/as/server/deployment/RootDeploymentUnitService.java:81-92 | the key now maps to the value, the rest of the bag is unchanged, and the previous value is returned |
| `Deployment.InjectedValue.Inject` | server/src/main/java/org/jboss/as/server/deployment/RootDeploymentUnitService.java:100-106 | the slot holds the injected value |
| `Deployment.InjectedValue.GetValue` | server/src/main/java/org/jboss/as/server/deployment/RootDeploymentUnitService.java:83-92 | reading succeeds iff the slot is filled, and then gives the value it holds |
| `Deployment.AddSVH` | server/src/main/java/org/jboss/as/server/deployment/RootDeploymentUnitService.java:108-111 | the verification handler is attached and nothing else in the bag changes |
| `Deployment.RootDeploymentUnitService.constructor` | server/src/main/java/org/jboss/as/server/deployment/RootDeploymentUnitService.java:67-77 | requires a non-null name; keeps every argument; the three slots are fresh, distinct and empty |
| `Deployment.RootDeploymentUnitService.CreateAndInitializeDeploymentUnit` | server/src/main/java/org/jboss/as/server/deployment/RootDeploymentUnitService.java:79-98 | fails, naming the first empty slot in the order contents, path manager, repository, iff a slot is empty; otherwise returns a fresh unit with the service's parent and name whose bag is InitialAttachments of the three injected values |
| `Deployment.RootDeploymentUnitService.InitialAttachments` | server/src/main/java/org/jboss/as/server/deployment/RootDeploymentUnitService.java:81-95 | the bag's keys are exactly the eleven root-unit keys; the runtime name is the service's name and the three injected keys hold the injected values |
| `Deployment.InitialAttachmentsContents` | server/src/main/java/org/jboss/as/server/deployment/RootDeploymentUnitService.java:79-98 | the bag holds exactly the eleven keys and no other; RUNTIME_NAME is the name, MANAGEMENT_NAME the management name, the three injected keys their injected values, the five constructor keys the constructor's objects, and the verification handler is present |
| `Deployment.CreateAfterInjection` | server/src/main/java/org/jboss/as/server/deployment/RootDeploymentUnitService.java:79-106 | with the repository slot still empty, creation fails naming it; once it is filled, creation succeeds and the bag holds the injected contents and repository |

## Left out

- XML output: `XMLStreamWriter` is not modelled. The marshaller returns the element name and the text of its `value` attribute. Whether the attribute is marshallable is decided by the framework's `isMarshallable`, which is not part of this model. It is an input to `MarshallOverflowAction`.
- Lower-casing covers ASCII letters only. Full Unicode case mapping under `Locale.ENGLISH` is not modelled. The enum names are ASCII.
- `IntRangeValidator`, `EnumValidator` and `AttributeDefinition` are not part of this model. `Controller.Check` encodes only the parameters the source passes: the minimum, nullability, expression permission and the enum's names. Enum names are matched exactly, so any case-insensitive matching in `EnumValidator` is not modelled. One consequence: the model's validator rejects the lower-case text its own marshaller writes ("block" and "discard" fail `ValidateOverflowAction` until they are upper-cased again, `WrittenTextNeedsUpperCasing`). The validation order assumed for the framework is: default substitution, then expressions accepted unexamined when the attribute allows them, then the validator.
- `Controller.Check`: type checks are strict. A value of another type fails as `WrongType`, so a string holding a number, such as "5" for `queue-length`, fails as `WrongType(INT)`, and an int given for `overflow-action` fails as `WrongType(STRING)`. Any lenient conversion the framework's validators apply before checking is not modelled.
- `LogHandlerListAttributeDefinition` is not part of this model. `subhandlers` is validated only as "a list, or undefined". The handler names inside the list are not checked.
- `OverflowAction` belongs to the LogManager library. It is modelled with its two constants, `BLOCK` and `DISCARD`. `OverflowActionResolver`, the `propertyName`s and the description resolvers are not modelled.
- `CommonAttributes` is not part of this model. The names taken from it are used as the subsystem spells them: "enabled", "level", "filter-spec", "encoding", "add-handler", "remove-handler", and the handler-name parameter "name".
- `FORMATTER` is inherited from `AbstractHandlerDefinition`, which is not part of this model. It is used under its attribute name "formatter".
- `LEGACY_ATTRIBUTES` is declared in `AbstractHandlerDefinition`, which is not part of this model. It is a parameter of the definition's constructor. `Logging.join` is modelled as concatenation.
- `super.registerOperations` is not modelled, nor are the handlers' own logic in `HandlerOperations` and `AbstractHandlerDefinition`. Handlers are identities only.
- The registration's behaviour when a name is registered twice is not modelled. The model overwrites the entry.
- `KnownModelVersion` is not part of this model. The transformer accepts any `ModelVersion` and special-cases 1.3.0. The transformer is given the attribute builder directly, because `resourceBuilder.getAttributeBuilder()` is the only use of `resourceBuilder`. `loggingProfileBuilder` is unused in the source.
- `ModelNode.resolve` is external. It is a function parameter (`resolve`) of the resolved-value validators.
- `AsString` of a list is written compactly. DMR's own layout of a list's text, with quotes and line breaks, is not modelled. Only a string's or an expression's text matters to the rules modelled.
- RBAC evaluation is not modelled. `SensitiveTargetAccessConstraintDefinition`, `ApplicationTypeAccessConstraintDefinition` and the classifications behind `CREDENTIAL` and `SECURITY_DOMAIN_REF` are tags.
- Read handlers are not modelled. They are `null` in every registration call.
- `AbstractWriteAttributeHandler` is not part of this model. The write handler's runtime is an opaque value of any type, which its two steps return unchanged.
- The service container is not modelled. `ServiceRegistry`, `DeploymentUnitImpl` internals, `VirtualFile`, `PathManager`, the vault reader, registrations and resources are opaque `ObjectRef`s. Attachment values are tagged only as text or object.
- `AbstractDeploymentUnitService`, the service's start and stop lifecycle, is not part of this model.
- `getServerDeploymentRepositoryInjector` and `getPathManagerInjector` are not separate members. The slots are fields of the model's class.
- Injecting `null` into a slot is not modelled.
- `Deployment.RootDeploymentUnitService.CreateAndInitializeDeploymentUnit`: an empty slot in the source throws `IllegalStateException`. The model returns a `Failure` naming the slot. The partly filled unit is dropped in both.
- Concurrency: none of the modelled code has any.
