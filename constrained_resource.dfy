/**
 * A data-source-like resource used to exercise role-based access control:
 * the jndi-name validator, the access constraints on each attribute, which
 * attributes are writable, the add handler's attributes, and a write handler
 * with no runtime effect.
 */
module ConstrainedResource {
  import opened Controller

  // ---------------------------------------------------------------------------
  // The jndi-name validator
  // ---------------------------------------------------------------------------

  const JNDI_REQUIRED: string := "Jndi name is required"
  const JNDI_BAD_PREFIX: string := "Jndi name have to start with java:/ or java:jboss/"
  const JNDI_BAD_SLASHES: string := "Jndi name shouldn't include '//' or end with '/'"

  predicate StartsWith(s: string, prefix: string)
  {
    |prefix| <= |s| && s[..|prefix|] == prefix
  }

  predicate EndsWith(s: string, suffix: string)
  {
    |suffix| <= |s| && s[|s| - |suffix|..] == suffix
  }

  /** String.contains: some position of s starts an occurrence of part. */
  predicate Contains(s: string, part: string)
    decreases |s|
  {
    StartsWith(s, part) || (s != [] && Contains(s[1..], part))
  }

  predicate OccursAt(s: string, part: string, i: int)
  {
    0 <= i <= |s| - |part| && s[i..i + |part|] == part
  }

  lemma {:induction false} ContainsIff(s: string, part: string)
    ensures Contains(s, part) <==> exists i :: OccursAt(s, part, i)
    decreases |s|
  {
    if StartsWith(s, part) {
      assert OccursAt(s, part, 0);
    } else if s != [] {
      ContainsIff(s[1..], part);
      if Contains(s[1..], part) {
        var i :| OccursAt(s[1..], part, i);
        assert s[1..][i..i + |part|] == s[i + 1..i + 1 + |part|];
        assert OccursAt(s, part, i + 1);
      }
      if i :| OccursAt(s, part, i) {
        assert i != 0;
        assert s[1..][i - 1..i - 1 + |part|] == s[i..i + |part|];
        assert OccursAt(s[1..], part, i - 1);
      }
    }
  }

  /** A double slash occurs exactly where two adjacent characters are both slashes. */
  lemma DoubleSlashIff(s: string)
    ensures Contains(s, "//") <==> exists i :: 0 <= i < |s| - 1 && s[i] == '/' && s[i + 1] == '/'
  {
    ContainsIff(s, "//");
    if i :| OccursAt(s, "//", i) {
      assert s[i..i + 2][0] == s[i] && s[i..i + 2][1] == s[i + 1];
    }
    if i :| 0 <= i < |s| - 1 && s[i] == '/' && s[i + 1] == '/' {
      assert s[i..i + 2] == "//";
      assert OccursAt(s, "//", i);
    }
  }

  /**
   * What the validator's checks require of a plain name, stated character by
   * character: one of the two prefixes, no trailing slash, no two slashes in a row.
   */
  predicate IsWellFormedJndiName(s: string)
  {
    && ((|s| >= 6 && s[..6] == "java:/") || (|s| >= 11 && s[..11] == "java:jboss/"))
    && s[|s| - 1] != '/'
    && forall i :: 0 <= i < |s| - 1 ==> !(s[i] == '/' && s[i + 1] == '/')
  }

  /** validateParameter of the jndi-name validator; a failure carries the exception's message. */
  function ValidateJndiName(value: ModelNode): (r: Outcome<string>)
    ensures !value.IsDefined() ==> r == Fail(JNDI_REQUIRED)
    ensures value.ExpressionNode? ==> r == Pass
    ensures value.IsDefined() && !value.ExpressionNode? ==>
              (r == Pass <==> IsWellFormedJndiName(AsString(value)))
    ensures r.Fail? ==> r.error in {JNDI_REQUIRED, JNDI_BAD_PREFIX, JNDI_BAD_SLASHES}
  {
    if value.IsDefined() then
      if value.GetType() != EXPRESSION then
        var str := AsString(value);
        if !StartsWith(str, "java:/") && !StartsWith(str, "java:jboss/") then
          Fail(JNDI_BAD_PREFIX)
        else if EndsWith(str, "/") || Contains(str, "//") then
          DoubleSlashIff(str);
          Fail(JNDI_BAD_SLASHES)
        else
          DoubleSlashIff(str);
          Pass
      else
        Pass
    else
      Fail(JNDI_REQUIRED)
  }

  /** validateResolvedParameter: the same checks on the resolved value (resolve stands for ModelNode.resolve). */
  function ValidateResolvedJndiName(value: ModelNode, resolve: ModelNode -> ModelNode): (r: Outcome<string>)
    ensures !resolve(value).IsDefined() ==> r == Fail(JNDI_REQUIRED)
    ensures resolve(value).StringNode? ==> (r == Pass <==> IsWellFormedJndiName(resolve(value).s))
  {
    ValidateJndiName(resolve(value))
  }

  /** A bad prefix is reported before any slash problem. */
  lemma BadPrefixReportedFirst(s: string)
    requires !StartsWith(s, "java:/") && !StartsWith(s, "java:jboss/")
    ensures ValidateJndiName(StringNode(s)) == Fail(JNDI_BAD_PREFIX)
  {
  }

  /** With a good prefix, a trailing slash or a double slash is reported as a slash problem. */
  lemma SlashRuleAfterPrefix(s: string)
    requires StartsWith(s, "java:/") || StartsWith(s, "java:jboss/")
    requires EndsWith(s, "/") || Contains(s, "//")
    ensures ValidateJndiName(StringNode(s)) == Fail(JNDI_BAD_SLASHES)
  {
  }

  /** The bare prefixes are themselves rejected, by the trailing-slash rule. */
  lemma BarePrefixesRejected()
    ensures ValidateJndiName(StringNode("java:/")) == Fail(JNDI_BAD_SLASHES)
    ensures ValidateJndiName(StringNode("java:jboss/")) == Fail(JNDI_BAD_SLASHES)
    ensures ValidateJndiName(StringNode("java:/jdbc/ExampleDS")) == Pass
  {
    assert StartsWith("java:/", "java:/") && EndsWith("java:/", "/");
    assert StartsWith("java:jboss/", "java:jboss/") && EndsWith("java:jboss/", "/");
    var good := "java:/jdbc/ExampleDS";
    assert good[..6] == "java:/";
    assert IsWellFormedJndiName(good);
  }

  /**
   * An expression passes the first check unexamined and can still fail once
   * resolved; a plain value that resolves to itself gets the same verdict twice.
   */
  lemma ResolutionRechecks(value: ModelNode, resolve: ModelNode -> ModelNode)
    ensures ValidateJndiName(ExpressionNode("${ds.jndi}")) == Pass
    ensures var resolveToRoot := (n: ModelNode) => StringNode("java:/");
            ValidateResolvedJndiName(ExpressionNode("${ds.jndi}"), resolveToRoot) == Fail(JNDI_BAD_SLASHES)
    ensures !value.ExpressionNode? && resolve(value) == value ==>
              ValidateResolvedJndiName(value, resolve) == ValidateJndiName(value)
  {
    BarePrefixesRejected();
  }

  // ---------------------------------------------------------------------------
  // Attributes and their access constraints
  // ---------------------------------------------------------------------------

  const DS_SECURITY: SensitivityClassification :=
    SensitivityClassification("rbac", "data-source-security", false, true, true)

  const DS_SECURITY_DEF: AccessConstraintDefinition := SensitiveTarget(DS_SECURITY)

  const PASSWORD: AttributeDefinition :=
    NewAttribute("password", STRING, true).(
      allowExpression := true,
      attributeGroup := Some("security"),
      accessConstraints := [CREDENTIAL, DS_SECURITY_DEF])

  const SECURITY_DOMAIN: AttributeDefinition :=
    NewAttribute("security-domain", STRING, false).(
      allowExpression := true,
      attributeGroup := Some("security"),
      allowNull := true,
      accessConstraints := [SECURITY_DOMAIN_REF, DS_SECURITY_DEF])

  const NEW_CONNECTION_SQL: AttributeDefinition :=
    NewAttribute("new-connection-sql", STRING, true).(allowExpression := true)

  const JNDI_NAME: AttributeDefinition :=
    NewAttribute("jndi-name", STRING, true).(
      allowExpression := true,
      attributeGroup := Some("naming"))

  /** The classification's identity and its defaults: access not sensitive, read and write sensitive. */
  lemma DsSecurityClassification()
    ensures DS_SECURITY.subsystem == "rbac" && DS_SECURITY.name == "data-source-security"
    ensures !DS_SECURITY.accessDefault && DS_SECURITY.readDefault && DS_SECURITY.writeDefault
  {
  }

  /** The constraints of each attribute, as a set. */
  lemma AttributeConstraints()
    ensures (set c | c in PASSWORD.accessConstraints) == {CREDENTIAL, DS_SECURITY_DEF}
    ensures (set c | c in SECURITY_DOMAIN.accessConstraints) == {SECURITY_DOMAIN_REF, DS_SECURITY_DEF}
    ensures NEW_CONNECTION_SQL.accessConstraints == [] && JNDI_NAME.accessConstraints == []
  {
  }

  /** The write handler used for the read-write attributes. It keeps no state. */
  datatype BasicAttributeWriteHandler = BasicAttributeWriteHandler(attribute: AttributeDefinition)

  /**
   * applyUpdateToRuntime: the runtime (of any type R) is left as it was and the
   * result says no reload is required.
   */
  function ApplyUpdateToRuntime<R>(h: BasicAttributeWriteHandler, runtime: R, attributeName: string,
                                   resolvedValue: ModelNode, currentValue: ModelNode): (r: (bool, R))
    ensures !r.0 && r.1 == runtime
  {
    (false, runtime)
  }

  /** revertUpdateToRuntime: does nothing to the runtime. */
  function RevertUpdateToRuntime<R>(h: BasicAttributeWriteHandler, runtime: R, attributeName: string,
                                    valueToRestore: ModelNode, valueToRevert: ModelNode): (r: R)
    ensures r == runtime
  {
    runtime
  }

  /** Reverting after applying leaves the runtime exactly as it was before the write. */
  lemma RevertAfterApplyRestores<R>(h: BasicAttributeWriteHandler, runtime: R, attributeName: string,
                                    newValue: ModelNode, oldValue: ModelNode)
    ensures var applied := ApplyUpdateToRuntime(h, runtime, attributeName, newValue, oldValue);
            RevertUpdateToRuntime(h, applied.1, attributeName, oldValue, newValue) == runtime
  {
  }

  /** The attribute table registerAttributes adds. */
  function ConstrainedAttributes(): (r: map<string, AttributeAccess<BasicAttributeWriteHandler>>)
    ensures r.Keys == {PASSWORD.name, SECURITY_DOMAIN.name, JNDI_NAME.name, NEW_CONNECTION_SQL.name}
    ensures forall name :: name in r ==> r[name].definition.name == name
  {
    map[
      PASSWORD.name := ReadWrite(PASSWORD, BasicAttributeWriteHandler(PASSWORD)),
      SECURITY_DOMAIN.name := ReadOnly(SECURITY_DOMAIN),
      JNDI_NAME.name := ReadOnly(JNDI_NAME),
      NEW_CONNECTION_SQL.name := ReadWrite(NEW_CONNECTION_SQL, BasicAttributeWriteHandler(NEW_CONNECTION_SQL))
    ]
  }

  /** The names of the registered attributes that carry the given constraint. */
  function AttributesConstrainedBy(table: map<string, AttributeAccess<BasicAttributeWriteHandler>>,
                                   c: AccessConstraintDefinition): set<string>
  {
    set name | name in table && c in table[name].definition.accessConstraints
  }

  /** Which attributes are writable, and that each write handler is built for its own attribute. */
  lemma WritableAttributes(name: string)
    requires name in ConstrainedAttributes()
    ensures ConstrainedAttributes()[name].ReadWrite? <==> name == "password" || name == "new-connection-sql"
    ensures ConstrainedAttributes()[name].definition.name == name
    ensures ConstrainedAttributes()[name].ReadWrite? ==>
              ConstrainedAttributes()[name].writeHandler.attribute == ConstrainedAttributes()[name].definition
  {
  }

  /** DS_SECURITY guards exactly password and security-domain; neither of the other two carries any constraint. */
  lemma DataSourceSecurityCoverage()
    ensures ConstrainedAttributes().Keys == {"password", "security-domain", "jndi-name", "new-connection-sql"}
    ensures AttributesConstrainedBy(ConstrainedAttributes(), DS_SECURITY_DEF) == {"password", "security-domain"}
    ensures AttributesConstrainedBy(ConstrainedAttributes(), CREDENTIAL) == {"password"}
    ensures AttributesConstrainedBy(ConstrainedAttributes(), SECURITY_DOMAIN_REF) == {"security-domain"}
  {
    var t := ConstrainedAttributes();
    assert t["jndi-name"].definition.accessConstraints == [];
    assert t["new-connection-sql"].definition.accessConstraints == [];
    assert t["password"].definition.accessConstraints == [CREDENTIAL, DS_SECURITY_DEF];
    assert t["security-domain"].definition.accessConstraints == [SECURITY_DOMAIN_REF, DS_SECURITY_DEF];
  }

  /** The attributes the add handler is created with. */
  const ADD_ATTRIBUTES: seq<AttributeDefinition> := [PASSWORD, SECURITY_DOMAIN]

  /** The resource's own constraints: the single application type ("rbac", "datasource"). */
  const DATASOURCE_APPLICATION_TYPE: seq<AccessConstraintDefinition> :=
    [ApplicationType(ApplicationTypeConfig("rbac", "datasource"))]

  /** The remove handler the resource is created with. */
  datatype RemoveHandler = RELOAD_REQUIRED_REMOVE

  /** The resource definition: its path element, its add and remove handlers, and its own access constraints. */
  class ConstrainedResourceDefinition {
    const pathElement: (string, string)
    const addHandlerAttributes: seq<AttributeDefinition>
    const removeHandler: RemoveHandler
    const accessConstraints: seq<AccessConstraintDefinition> := DATASOURCE_APPLICATION_TYPE

    constructor (pathElement: (string, string))
      ensures this.pathElement == pathElement
      ensures addHandlerAttributes == ADD_ATTRIBUTES
      ensures removeHandler == RELOAD_REQUIRED_REMOVE
      ensures accessConstraints == [ApplicationType(ApplicationTypeConfig("rbac", "datasource"))]
    {
      this.pathElement := pathElement;
      addHandlerAttributes := ADD_ATTRIBUTES;
      removeHandler := RELOAD_REQUIRED_REMOVE;
    }

    function GetAccessConstraints(): (r: seq<AccessConstraintDefinition>)
      ensures |r| == 1 && r[0] == ApplicationType(ApplicationTypeConfig("rbac", "datasource"))
    {
      accessConstraints
    }

    /** Registers password and new-connection-sql read-write, security-domain and jndi-name read-only. */
    method RegisterAttributes(resourceRegistration: ManagementResourceRegistration<BasicAttributeWriteHandler>)
      modifies resourceRegistration
      ensures resourceRegistration.attributes == old(resourceRegistration.attributes) + ConstrainedAttributes()
      ensures resourceRegistration.operations == old(resourceRegistration.operations)
    {
      resourceRegistration.RegisterReadWriteAttribute(PASSWORD, BasicAttributeWriteHandler(PASSWORD));
      resourceRegistration.RegisterReadOnlyAttribute(SECURITY_DOMAIN);
      resourceRegistration.RegisterReadOnlyAttribute(JNDI_NAME);
      resourceRegistration.RegisterReadWriteAttribute(NEW_CONNECTION_SQL, BasicAttributeWriteHandler(NEW_CONNECTION_SQL));
    }
  }

  /** The add handler populates password and security-domain and no other attribute. */
  lemma AddHandlerPopulatesSecurityAttributes()
    ensures (set a | a in ADD_ATTRIBUTES :: a.name) == {"password", "security-domain"}
    ensures forall a :: a in ADD_ATTRIBUTES ==> a.accessConstraints != [] && a.attributeGroup == Some("security")
  {
  }
}
