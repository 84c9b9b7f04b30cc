/**
 * The top-level service of a deployment unit: it holds the unit's names, its
 * parent, the management objects it was created with, and three slots that the
 * service container fills before the service starts; creating the unit writes
 * all of these into the unit's attachment bag.
 */
module Deployment {
  import opened Controller

  /**
   * An object the model does not look into (a registration, a resource, a
   * VirtualFile, a PathManager, a vault reader, ...), known only by identity.
   */
  datatype ObjectRef = ObjectRef(id: nat)

  /** ServiceVerificationHandler.INSTANCE. */
  const SERVICE_VERIFICATION_HANDLER_INSTANCE: ObjectRef := ObjectRef(0)

  /** Attachment keys. OtherKey stands for every key this service does not write. */
  datatype AttachmentKey =
    | RUNTIME_NAME
    | MANAGEMENT_NAME
    | DEPLOYMENT_CONTENTS
    | REGISTRATION_ATTACHMENT
    | MUTABLE_REGISTRATION_ATTACHMENT
    | DEPLOYMENT_RESOURCE
    | VAULT_READER_ATTACHMENT_KEY
    | DEPLOYMENT_OVERLAY_INDEX
    | PATH_MANAGER
    | SERVER_DEPLOYMENT_REPOSITORY
    | SERVICE_VERIFICATION_HANDLER
    | OtherKey(keyName: string)

  /** An attachment value: a string or another object, either of which may be null (None). */
  datatype AttachmentValue = Text(text: Option<string>) | Object(obj: Option<ObjectRef>)

  /** The keys createAndInitializeDeploymentUnit writes. */
  const ROOT_UNIT_KEYS: set<AttachmentKey> := {
    RUNTIME_NAME, MANAGEMENT_NAME, DEPLOYMENT_CONTENTS, REGISTRATION_ATTACHMENT,
    MUTABLE_REGISTRATION_ATTACHMENT, DEPLOYMENT_RESOURCE, VAULT_READER_ATTACHMENT_KEY,
    DEPLOYMENT_OVERLAY_INDEX, PATH_MANAGER, SERVER_DEPLOYMENT_REPOSITORY, SERVICE_VERIFICATION_HANDLER
  }

  /** A deployment unit: its parent (null for a top-level unit), its name, its service registry and its attachments. */
  class DeploymentUnit {
    const parent: DeploymentUnit?
    const name: string
    const serviceRegistry: Option<ObjectRef>
    var attachments: map<AttachmentKey, AttachmentValue>

    constructor (parent: DeploymentUnit?, name: string, serviceRegistry: Option<ObjectRef>)
      ensures this.parent == parent && this.name == name && this.serviceRegistry == serviceRegistry
      ensures attachments == map[]
    {
      this.parent := parent;
      this.name := name;
      this.serviceRegistry := serviceRegistry;
      attachments := map[];
    }

    /** Stores the value under the key and returns what was stored there before. */
    method PutAttachment(key: AttachmentKey, value: AttachmentValue) returns (previous: Option<AttachmentValue>)
      modifies this
      ensures attachments == old(attachments)[key := value]
      ensures previous == if key in old(attachments) then Some(old(attachments)[key]) else None
    {
      previous := if key in attachments then Some(attachments[key]) else None;
      attachments := attachments[key := value];
    }
  }

  /** The failure of reading a slot that was never filled (an IllegalStateException). */
  datatype IllegalState = ServiceNotStarted

  /** A slot the service container fills before the service starts. */
  class InjectedValue<T> {
    var value: Option<T>

    constructor ()
      ensures value == None
    {
      value := None;
    }

    method Inject(v: T)
      modifies this
      ensures value == Some(v)
    {
      value := Some(v);
    }

    method GetValue() returns (r: Result<T, IllegalState>)
      ensures value.Some? <==> r.Success?
      ensures value.Some? ==> r.value == value.value
    {
      if value.Some? {
        r := Success(value.value);
      } else {
        r := Failure(ServiceNotStarted);
      }
    }
  }

  /** The injected dependency that was missing when the unit was created. */
  datatype Dependency = CONTENTS_DEPENDENCY | PATH_MANAGER_DEPENDENCY | DEPLOYMENT_REPOSITORY_DEPENDENCY

  datatype CreationError = NotInjected(dependency: Dependency)

  /** Records the verification handler on the unit, for compatibility. */
  method AddSVH(deploymentUnit: DeploymentUnit)
    modifies deploymentUnit
    ensures deploymentUnit.attachments ==
            old(deploymentUnit.attachments)[SERVICE_VERIFICATION_HANDLER := Object(Some(SERVICE_VERIFICATION_HANDLER_INSTANCE))]
  {
    var previous := deploymentUnit.PutAttachment(SERVICE_VERIFICATION_HANDLER, Object(Some(SERVICE_VERIFICATION_HANDLER_INSTANCE)));
  }

  class RootDeploymentUnitService {
    const serverDeploymentRepositoryInjector: InjectedValue<ObjectRef>
    const pathManagerInjector: InjectedValue<ObjectRef>
    const name: string
    const managementName: Option<string>
    const contentsInjector: InjectedValue<ObjectRef>
    const parent: DeploymentUnit?
    const registration: Option<ObjectRef>
    const mutableRegistration: Option<ObjectRef>
    var resource: Option<ObjectRef>
    const vaultReader: Option<ObjectRef>
    const deploymentOverlays: Option<ObjectRef>

    /** The three slots are distinct objects. */
    ghost predicate Valid()
      reads this
    {
      && contentsInjector != pathManagerInjector
      && contentsInjector != serverDeploymentRepositoryInjector
      && pathManagerInjector != serverDeploymentRepositoryInjector
    }

    /** The name must not be null; the three slots start empty. */
    constructor (name: Option<string>, managementName: Option<string>, parent: DeploymentUnit?,
                 registration: Option<ObjectRef>, mutableRegistration: Option<ObjectRef>,
                 resource: Option<ObjectRef>, vaultReader: Option<ObjectRef>,
                 deploymentOverlays: Option<ObjectRef>)
      requires name.Some?
      ensures Valid()
      ensures this.name == name.value && this.managementName == managementName && this.parent == parent
      ensures this.registration == registration && this.mutableRegistration == mutableRegistration
      ensures this.resource == resource && this.vaultReader == vaultReader
      ensures this.deploymentOverlays == deploymentOverlays
      ensures fresh(contentsInjector) && fresh(pathManagerInjector) && fresh(serverDeploymentRepositoryInjector)
      ensures contentsInjector.value == None && pathManagerInjector.value == None
      ensures serverDeploymentRepositoryInjector.value == None
    {
      serverDeploymentRepositoryInjector := new InjectedValue<ObjectRef>();
      pathManagerInjector := new InjectedValue<ObjectRef>();
      contentsInjector := new InjectedValue<ObjectRef>();
      this.name := name.value;
      this.managementName := managementName;
      this.parent := parent;
      this.registration := registration;
      this.mutableRegistration := mutableRegistration;
      this.resource := resource;
      this.vaultReader := vaultReader;
      this.deploymentOverlays := deploymentOverlays;
    }

    /** The attachment bag of a unit created from this service and the three injected values. */
    function InitialAttachments(contents: ObjectRef, pathManager: ObjectRef, repository: ObjectRef): (r: map<AttachmentKey, AttachmentValue>)
      reads this
      ensures r.Keys == ROOT_UNIT_KEYS
      ensures RUNTIME_NAME in r && r[RUNTIME_NAME] == Text(Some(name))
      ensures DEPLOYMENT_CONTENTS in r && r[DEPLOYMENT_CONTENTS] == Object(Some(contents))
      ensures PATH_MANAGER in r && r[PATH_MANAGER] == Object(Some(pathManager))
      ensures SERVER_DEPLOYMENT_REPOSITORY in r && r[SERVER_DEPLOYMENT_REPOSITORY] == Object(Some(repository))
    {
      map[
        RUNTIME_NAME := Text(Some(name)),
        MANAGEMENT_NAME := Text(managementName),
        DEPLOYMENT_CONTENTS := Object(Some(contents)),
        REGISTRATION_ATTACHMENT := Object(registration),
        MUTABLE_REGISTRATION_ATTACHMENT := Object(mutableRegistration),
        DEPLOYMENT_RESOURCE := Object(resource),
        VAULT_READER_ATTACHMENT_KEY := Object(vaultReader),
        DEPLOYMENT_OVERLAY_INDEX := Object(deploymentOverlays),
        PATH_MANAGER := Object(Some(pathManager)),
        SERVER_DEPLOYMENT_REPOSITORY := Object(Some(repository)),
        SERVICE_VERIFICATION_HANDLER := Object(Some(SERVICE_VERIFICATION_HANDLER_INSTANCE))
      ]
    }

    /**
     * Creates the unit under the given registry and fills its attachments. The
     * slots are read in the order contents, path manager, deployment
     * repository; the first empty one aborts the creation.
     */
    method CreateAndInitializeDeploymentUnit(registry: Option<ObjectRef>) returns (r: Result<DeploymentUnit, CreationError>)
      ensures contentsInjector.value.None? ==> r == Failure(NotInjected(CONTENTS_DEPENDENCY))
      ensures contentsInjector.value.Some? && pathManagerInjector.value.None? ==>
                r == Failure(NotInjected(PATH_MANAGER_DEPENDENCY))
      ensures contentsInjector.value.Some? && pathManagerInjector.value.Some? &&
              serverDeploymentRepositoryInjector.value.None? ==>
                r == Failure(NotInjected(DEPLOYMENT_REPOSITORY_DEPENDENCY))
      ensures r.Success? <==>
                contentsInjector.value.Some? && pathManagerInjector.value.Some? &&
                serverDeploymentRepositoryInjector.value.Some?
      ensures r.Success? ==>
                && fresh(r.value)
                && r.value.parent == parent && r.value.name == name && r.value.serviceRegistry == registry
                && r.value.attachments == InitialAttachments(
                     contentsInjector.value.value, pathManagerInjector.value.value,
                     serverDeploymentRepositoryInjector.value.value)
    {
      var deploymentUnit := new DeploymentUnit(parent, name, registry);
      var previous := deploymentUnit.PutAttachment(RUNTIME_NAME, Text(Some(name)));
      previous := deploymentUnit.PutAttachment(MANAGEMENT_NAME, Text(managementName));
      var contents := contentsInjector.GetValue();
      if contents.Failure? {
        return Failure(NotInjected(CONTENTS_DEPENDENCY));
      }
      previous := deploymentUnit.PutAttachment(DEPLOYMENT_CONTENTS, Object(Some(contents.value)));
      previous := deploymentUnit.PutAttachment(REGISTRATION_ATTACHMENT, Object(registration));
      previous := deploymentUnit.PutAttachment(MUTABLE_REGISTRATION_ATTACHMENT, Object(mutableRegistration));
      previous := deploymentUnit.PutAttachment(DEPLOYMENT_RESOURCE, Object(resource));
      previous := deploymentUnit.PutAttachment(VAULT_READER_ATTACHMENT_KEY, Object(vaultReader));
      previous := deploymentUnit.PutAttachment(DEPLOYMENT_OVERLAY_INDEX, Object(deploymentOverlays));
      var pathManager := pathManagerInjector.GetValue();
      if pathManager.Failure? {
        return Failure(NotInjected(PATH_MANAGER_DEPENDENCY));
      }
      previous := deploymentUnit.PutAttachment(PATH_MANAGER, Object(Some(pathManager.value)));

      // Attach the deployment repository.
      var repository := serverDeploymentRepositoryInjector.GetValue();
      if repository.Failure? {
        return Failure(NotInjected(DEPLOYMENT_REPOSITORY_DEPENDENCY));
      }
      previous := deploymentUnit.PutAttachment(SERVER_DEPLOYMENT_REPOSITORY, Object(Some(repository.value)));

      AddSVH(deploymentUnit);
      r := Success(deploymentUnit);
    }
  }

  /**
   * The attachment bag holds exactly the eleven keys, the two names, the
   * constructor's objects, the three injected values and the verification handler.
   */
  lemma InitialAttachmentsContents(s: RootDeploymentUnitService,
                                   contents: ObjectRef, pathManager: ObjectRef, repository: ObjectRef)
    ensures var bag := s.InitialAttachments(contents, pathManager, repository);
      && bag.Keys == ROOT_UNIT_KEYS
      && |bag.Keys| == 11
      && (forall k: AttachmentKey :: k.OtherKey? ==> k !in bag)
      && bag[RUNTIME_NAME] == Text(Some(s.name))
      && bag[MANAGEMENT_NAME] == Text(s.managementName)
      && bag[DEPLOYMENT_CONTENTS] == Object(Some(contents))
      && bag[PATH_MANAGER] == Object(Some(pathManager))
      && bag[SERVER_DEPLOYMENT_REPOSITORY] == Object(Some(repository))
      && bag[REGISTRATION_ATTACHMENT] == Object(s.registration)
      && bag[MUTABLE_REGISTRATION_ATTACHMENT] == Object(s.mutableRegistration)
      && bag[DEPLOYMENT_RESOURCE] == Object(s.resource)
      && bag[VAULT_READER_ATTACHMENT_KEY] == Object(s.vaultReader)
      && bag[DEPLOYMENT_OVERLAY_INDEX] == Object(s.deploymentOverlays)
      && bag[SERVICE_VERIFICATION_HANDLER] == Object(Some(SERVICE_VERIFICATION_HANDLER_INSTANCE))
  {
    RootUnitKeys();
  }

  /** The root unit's keys are eleven distinct well-known keys. */
  lemma RootUnitKeys()
    ensures |ROOT_UNIT_KEYS| == 11
    ensures forall k :: k in ROOT_UNIT_KEYS ==> !k.OtherKey?
  {
  }

  /**
   * A unit cannot be created while one slot is empty; once the container has
   * filled all three, it can, and its bag holds what was injected.
   */
  method CreateAfterInjection(contents: ObjectRef, pathManager: ObjectRef, repository: ObjectRef)
    returns (early: Result<DeploymentUnit, CreationError>, late: Result<DeploymentUnit, CreationError>)
    ensures early == Failure(NotInjected(DEPLOYMENT_REPOSITORY_DEPENDENCY))
    ensures late.Success? && late.value.attachments.Keys == ROOT_UNIT_KEYS
    ensures late.Success? && SERVER_DEPLOYMENT_REPOSITORY in late.value.attachments &&
            late.value.attachments[SERVER_DEPLOYMENT_REPOSITORY] == Object(Some(repository))
    ensures late.Success? && DEPLOYMENT_CONTENTS in late.value.attachments &&
            late.value.attachments[DEPLOYMENT_CONTENTS] == Object(Some(contents))
  {
    var service := new RootDeploymentUnitService(Some("app.war"), Some("app.war"), null, None, None, None, None, None);
    service.contentsInjector.Inject(contents);
    service.pathManagerInjector.Inject(pathManager);
    early := service.CreateAndInitializeDeploymentUnit(None);
    service.serverDeploymentRepositoryInjector.Inject(repository);
    late := service.CreateAndInitializeDeploymentUnit(None);
    InitialAttachmentsContents(service, contents, pathManager, repository);
  }
}
