/**
 * What the commands work on: the engine's errors, the entities they read, the collaborators
 * they call (stores, job manager, operation log, process graph) and the command context
 * that carries them. Every call into a collaborator is recorded, in order, in the
 * context's trace, so that "checked before mutated" and "exactly once" can be stated.
 */
module Engine {
  import opened Common
  import opened Permissions

  /** A point in time (java.util.Date). */
  type Date = int

  /** A map of process variables; variable values are opaque here. */
  type Variables = map<string, string>

  // ---------------------------------------------------------------- authentication

  /** The authenticated subject: a user and the user's groups. */
  datatype Authentication = Authentication(userId: string, groupIds: seq<string>)

  /**
   * The authorization store's answer to one query (the SQL statement
   * `isUserAuthorizedForResource`, which is not part of this model).
   */
  type StoreOracle = AuthorizationCheck -> bool

  /**
   * The authorization posture of a command: whether authorization is enabled in the
   * engine configuration, who is currently authenticated, and what the store answers.
   */
  datatype AuthSetup = AuthSetup(
    authorizationEnabled: bool,
    currentAuthentication: Option<Authentication>,
    store: StoreOracle)

  /** Authorization is checked only when it is enabled and somebody is authenticated. */
  predicate Enforced(s: AuthSetup) {
    s.authorizationEnabled && s.currentAuthentication.Some?
  }

  /** The store query that the current subject's check of `checks` sends. */
  function CurrentQuery(s: AuthSetup, checks: seq<Check>): AuthorizationCheck
    requires Enforced(s)
  {
    AuthorizationCheck(s.currentAuthentication.value.userId,
                       s.currentAuthentication.value.groupIds, checks)
  }

  // ---------------------------------------------------------------- errors

  /** The fields an AuthorizationException carries (the message text is not modelled). */
  datatype AuthorizationError =
    | MissingPermission(userId: string, permissionName: string, resourceName: string,
                        resourceId: Option<string>)
    | MissingAnyOf(userId: string, checks: seq<Check>)

  /**
   * The kinds of failure the commands raise. `subject` is the id or name the engine's
   * message mentions, when it mentions one.
   */
  datatype EngineError =
    | NullValue(variable: string, subject: Option<string>)          // EnsureUtil.ensureNotNull
    | EmptyCollection(variable: string, subject: Option<string>)    // EnsureUtil.ensureNotEmpty
    | NotExactly(variable: string, expected: nat, subject: Option<string>) // ensureNumberOfElements
    | AtLeastOneRequired(variables: seq<string>)                    // ensureAtLeastOneNotNull
    | NoJobSelector                                                 // ProcessEngineException of the job variant
    | InvalidParameters(kind: string)                               // a variant's own parameter check
    | IllegalArgument                                               // IllegalArgumentException
    | NullReference                                                 // a dereferenced null
    | Unauthorized(cause: AuthorizationError)                       // AuthorizationException

  datatype Result<T> = Ok(value: T) | Err(error: EngineError)

  // ---------------------------------------------------------------- entities

  /** SuspensionState.java is not part of this model; its two states and their names. */
  datatype SuspensionState = Active | Suspended {
    function Name(): string {
      match this
      case Active => "active"
      case Suspended => "suspended"
    }
  }

  /** The three timer fields the set-state template fills in. */
  datatype Timer = Timer(duedate: Date, jobHandlerType: Option<string>,
                         jobHandlerConfiguration: Option<string>)

  /** The JobManager update that a job-state command issues, one per selector kind. */
  datatype JobSelector =
    | ByJobId | ByJobDefinitionId | ByProcessInstanceId | ByProcessDefinitionId
    | ByProcessDefinitionKey

  /** What a suspension-state update was applied to. */
  datatype StateTarget =
    | JobsBy(selector: JobSelector, id: string)
    | ResourcesOf(kind: string)   // the update of a variant whose code is not part of this model

  datatype PropertyChange = PropertyChange(propertyName: string, orgValue: Option<string>,
                                           newValue: Option<string>)

  /** One user-operation log entry. */
  datatype LogEntry =
    | JobOperation(operation: string, jobId: Option<string>, jobDefinitionId: Option<string>,
                   processInstanceId: Option<string>, processDefinitionId: Option<string>,
                   processDefinitionKey: Option<string>, change: PropertyChange)
    | ResourceOperation(kind: string, operation: string)

  datatype EventSubscription = EventSubscription(
    id: string,
    eventType: string,
    eventName: string,
    executionId: Option<string>,
    processInstanceId: Option<string>,
    activityId: string,
    configuration: Option<string>)

  datatype ProcessDefinitionEntity = ProcessDefinitionEntity(id: string, key: string)

  datatype Execution = Execution(id: string, processInstanceId: string,
                                 processDefinitionKey: string)

  datatype CorrelationSet = CorrelationSet(businessKey: Option<string>,
                                           processInstanceId: Option<string>,
                                           correlationKeys: Option<Variables>)

  /** MessageCorrelationResult's two result types. */
  datatype ResultType = TypeExecution | TypeProcessDefinition

  /** A correlation result: what it matched (an execution id or a definition id). */
  datatype CorrelationResult = CorrelationResult(resultType: ResultType, target: string)

  /** A process instance as created by a start: definition, business key, start activity. */
  datatype NewProcessInstance = NewProcessInstance(processDefinitionId: string,
                                             businessKey: Option<string>, activityId: string)

  /** The event type of message subscriptions (MessageEventHandler.EVENT_HANDLER_TYPE). */
  const MessageEventType := "message"

  // ---------------------------------------------------------------- effects

  /** A read from a store. */
  datatype Lookup =
    | SubscriptionsByNameAndExecution(eventType: string, name: string, executionId: string)
    | SubscriptionsByExecutionAndType(executionId: string, eventType: string)
    | MessageStartSubscriptionByName(messageName: string)
    | DeployedDefinitionById(definitionId: string)
    | LatestDefinitionById(definitionId: string)
    | ExecutionById(processInstanceId: Option<string>)
    | CorrelateMessages(correlatedName: Option<string>, correlationSet: CorrelationSet)
    | TaskById(taskId: string)

  /** One call into a collaborator. */
  datatype Effect =
    | StoreQueried(query: AuthorizationCheck)                 // the authorization store is consulted
    | Looked(lookup: Lookup, withoutAuthentication: bool)      // a store read
    | AuthorizationInserted(authorizationId: Option<string>)
    | AuthorizationMerged(authorizationId: Option<string>)
    | AuthorizationsDeletedFor(resourceType: int, resourceId: string)
    | AuthorizationDeleted(authorizationId: Option<string>)
    | SuspensionStateUpdated(target: StateTarget, state: SuspensionState)
    | TimerScheduled(timer: Timer)
    | OperationLogged(entry: LogEntry)
    | EventReceived(subscriptionId: string, payload: Option<Variables>, processASync: bool)
    | ProcessInstanceCreated(instance: NewProcessInstance)
    | ProcessInstanceStarted(instance: NewProcessInstance, variables: Option<Variables>)
    | CorrelationResultChecked(result: CorrelationResult)
    | ExecutionTriggered(result: CorrelationResult, variables: Option<Variables>)
    | ProcessInstantiated(result: CorrelationResult, variables: Option<Variables>)
    | TaskUpdateChecked(taskId: string)
    | TaskPrioritySet(taskId: string, priority: int)
    | TaskDelegated(taskId: string, userId: Option<string>)
    | HistoricTaskDetailsCreated(taskId: string, operation: string)

  /** The number of effects satisfying `p`. */
  function Count(effects: seq<Effect>, p: Effect -> bool): nat {
    if effects == [] then 0
    else (if p(effects[0]) then 1 else 0) + Count(effects[1..], p)
  }

  lemma {:induction false} CountAppend(a: seq<Effect>, b: seq<Effect>, p: Effect -> bool)
    ensures Count(a + b, p) == Count(a, p) + Count(b, p)
  {
    if a != [] {
      assert (a + b)[0] == a[0] && (a + b)[1..] == a[1..] + b;
      CountAppend(a[1..], b, p);
    } else {
      assert a + b == b;
    }
  }

  lemma {:induction false} CountNone(a: seq<Effect>, p: Effect -> bool)
    requires forall i :: 0 <= i < |a| ==> !p(a[i])
    ensures Count(a, p) == 0
  {
    if a != [] {
      CountNone(a[1..], p);
    }
  }

  /** The result and the recorded effects of one step that does not change objects. */
  datatype Outcome<T> = Outcome(effects: seq<Effect>, result: Result<T>)

  // ---------------------------------------------------------------- collaborators

  /**
   * The collaborators the commands consult but whose code is not part of this model:
   * store reads, the correlation handler, and two authorization checks whose code is
   * not shown (AbstractCorrelateMessageCmd.checkAuthorization and
   * AuthorizationManager.checkUpdateTask), given as their verdicts.
   */
  datatype Collaborators = Collaborators(
    subscriptionsByNameAndExecution: (string, string, string) -> seq<EventSubscription>,
    subscriptionsByExecutionAndType: (string, string) -> seq<EventSubscription>,
    messageStartSubscriptionByName: string -> Option<EventSubscription>,
    deployedDefinitionById: string -> Option<ProcessDefinitionEntity>,
    latestDefinitionById: string -> Option<ProcessDefinitionEntity>,
    executionById: Option<string> -> Option<Execution>,
    correlateMessages: (Option<string>, CorrelationSet) -> seq<CorrelationResult>,
    checkCorrelationResult: CorrelationResult -> Option<AuthorizationError>,
    checkUpdateTask: string -> Option<AuthorizationError>)

  /** A task entity; only its priority is changed by the modelled commands. */
  class TaskEntity {
    const id: string
    var name: string
    var priority: int
    var assignee: Option<string>
    var owner: Option<string>

    constructor (id: string, name: string, priority: int)
      ensures this.id == id && this.name == name && this.priority == priority
      ensures assignee == None && owner == None
    {
      this.id := id;
      this.name := name;
      this.priority := priority;
      assignee := None;
      owner := None;
    }

    /** setPriority: changes the priority and nothing else. */
    method SetPriority(priority: int)
      modifies this
      ensures this.priority == priority
      ensures name == old(name) && assignee == old(assignee) && owner == old(owner)
    {
      this.priority := priority;
    }
  }

  /** The context a command runs in, and the ordered record of what it did. */
  class CommandContext {
    const authorization: AuthSetup
    const collaborators: Collaborators
    const tasks: map<string, TaskEntity>
    var trace: seq<Effect>

    constructor (authorization: AuthSetup, collaborators: Collaborators,
                 tasks: map<string, TaskEntity>)
      ensures this.authorization == authorization && this.collaborators == collaborators
      ensures this.tasks == tasks && trace == []
    {
      this.authorization := authorization;
      this.collaborators := collaborators;
      this.tasks := tasks;
      trace := [];
    }
  }
}
