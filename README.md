# Authorization-gated commands of the Camunda BPM engine, in Dafny

This project models the part of the Camunda BPM process engine that decides whether
the current user may do something, and the commands that ask it before acting:

- **the authorization manager.** It holds the fail-open gate: checks apply only when
  authorization is enabled and somebody is authenticated. It builds single checks and
  check lists, sends each to the authorization store as one query, and raises an
  authorization failure when the store says no. It also holds the canned
  process-instance checks, the configuration of authorization-aware queries, and the
  authorization-store writes (insert, update, delete, delete-by-resource).
- **the permission-check record.** It has five fields, their defaults, and one setter
  per field.
- **the suspension-state template.** It checks the parameters, then either updates the
  state now or schedules a timer. When updating now, it may cascade to a next command,
  after switching off that command's logging. Finally it logs unless logging is off. The
  job variant adds the selector check, the priority-ordered job update and the job log
  entry.
- **the message commands.** There are three: deliver a message to one execution's
  subscription, start a process instance by a message start event, and correlate a
  message to every match.
- **the task commands.** Set a task's priority, and delegate a task.

Every call a command makes into a collaborator goes into one ordered trace on the
command context (`Engine.CommandContext.trace`). These calls are store reads, store
queries, job-manager updates, timers, log entries, deliveries and history details. This
lets the contracts state more than results:

- what was looked up, and whether authentication was off during the lookup;
- which authorization query was sent;
- that the check came before the change, and that the change happened exactly once.

Each command is a class whose `Execute` method records exactly the effects of a
specification function (`Run`, `ReceiveMessage`, `StartByMessage`, `CorrelateAll`,
`TaskUpdate`). Lemmas about those functions state what the engine promises.

The authorization store is an oracle from a query (user, groups, list of checks) to a
boolean. Its SQL predicate is not modelled. Where the engine's tests show that a store
grants a list of checks when it grants any one check in it, this is stated as an
assumption (`AuthorizationManager.GrantsAny`). Only lemmas that name that assumption rely
on it.

Modules: `Common` (Option), `Permissions` (permissions, resources, the check record),
`Engine` (errors, entities, effects, collaborators, the command context),
`AuthorizationManager`, `SetStateCommands`, `MessageCommands` and `TaskCommands`.

## Model

| member | source | states |
|---|---|---|
| Permissions.PermissionCheck.constructor | engine/src/main/java/org/camunda/bpm/engine/impl/db/PermissionCheck.java:23-34 | a fresh record has perms 0, resource type 0, and null id, query parameter and noAuthFound |
| Permissions.PermissionCheck.SetAuthPerms | engine/src/main/java/org/camunda/bpm/engine/impl/db/PermissionCheck.java:36-42 | the getter returns the value set; the other four fields are unchanged |
| Permissions.PermissionCheck.SetAuthResourceType | engine/src/main/java/org/camunda/bpm/engine/impl/db/PermissionCheck.java:44-50 | the getter returns the value set; the other four fields are unchanged |
| Permissions.PermissionCheck.SetAuthResourceId | engine/src/main/java/org/camunda/bpm/engine/impl/db/PermissionCheck.java:52-58 | the getter returns the value set; the other four fields are unchanged |
| Permissions.PermissionCheck.SetAuthResourceIdQueryParam | engine/src/main/java/org/camunda/bpm/engine/impl/db/PermissionCheck.java:60-66 | the getter returns the value set; the other four fields are unchanged |
| Permissions.PermissionCheck.SetNoAuthFound | engine/src/main/java/org/camunda/bpm/engine/impl/db/PermissionCheck.java:68-74 | the getter returns the value set; the other four fields are unchanged |
| Permissions.SetTwiceEqualsSetOnce | engine/src/main/java/org/camunda/bpm/engine/impl/db/PermissionCheck.java:23-74 | a fresh record reads as the defaults; after one setter call per field, each getter returns what was set; setting every field a second time to the same values leaves the record as it was |
| AuthorizationManager.IsUserAuthorized | engine/src/main/java/org/camunda/bpm/engine/impl/persistence/entity/AuthorizationManager.java:151-157 | exactly one store query, carrying the user, the groups and the whole check list; the answer is the store's |
| AuthorizationManager.IsUserAuthorizedFor | engine/src/main/java/org/camunda/bpm/engine/impl/persistence/entity/AuthorizationManager.java:143-149 | the list form applied to the single check with the permission's value, the resource's type and the id, with no query parameter and a null noAuthFound |
| AuthorizationManager.IsAuthorized | engine/src/main/java/org/camunda/bpm/engine/impl/persistence/entity/AuthorizationManager.java:130-141 | with the gate closed, true with no store query; with it open, exactly one query of the current user and groups with the single check of the permission, resource type and id, and the answer is the store's |
| AuthorizationManager.CheckAuthorizations | engine/src/main/java/org/camunda/bpm/engine/impl/persistence/entity/AuthorizationManager.java:99-110 | gate closed: success, nothing sent; gate open: one query with the whole list; fails iff the store rejects it, and the failure carries the user and the list |
| AuthorizationManager.CheckAuthorization | engine/src/main/java/org/camunda/bpm/engine/impl/persistence/entity/AuthorizationManager.java:116-128 | gate closed: success, nothing sent; gate open: one query with the one-element list; fails iff the store rejects it, and the failure names the user, the permission name, the resource name and the id |
| AuthorizationManager.CheckAuthorizationOnType | engine/src/main/java/org/camunda/bpm/engine/impl/persistence/entity/AuthorizationManager.java:112-114 | gate closed: success, nothing sent; gate open: one query with the single check of the permission on the resource type with a null id, and success iff the store grants it; the failure names the user, the permission, the resource and a null id |
| AuthorizationManager.FailOpen | engine/src/main/java/org/camunda/bpm/engine/impl/persistence/entity/AuthorizationManager.java:99-141 | with authorization disabled or nobody authenticated, every decision passes and no store query is sent |
| AuthorizationManager.SingleCheckIsListOfOne | engine/src/main/java/org/camunda/bpm/engine/impl/persistence/entity/AuthorizationManager.java:116-128 | the single-resource check sends the same query as the list check of its one check, and passes exactly when that one does |
| AuthorizationManager.CheckCreateProcessInstance | engine/src/main/java/org/camunda/bpm/engine/impl/persistence/entity/AuthorizationManager.java:234-237 | CREATE on process instances (null id) is queried first; CREATE_INSTANCES on the definition key is queried only if it passed; success iff the store grants both; when only CREATE_INSTANCES is refused, the failure names CREATE_INSTANCES on ProcessDefinition with the definition key |
| AuthorizationManager.CreateReportsCreateFirst | engine/src/main/java/org/camunda/bpm/engine/impl/persistence/entity/AuthorizationManager.java:234-237 | when CREATE is refused, the failure names CREATE on ProcessInstance, whatever the second grant |
| AuthorizationManager.CreateNeedsBothGrants | engine/src/test/java/org/camunda/bpm/engine/test/authorization/ProcessInstanceAuthorizationTest.java:112-170 | for a store that grants a list when any check in it is granted, creation succeeds iff both checks are granted: neither alone suffices |
| AuthorizationManager.CheckReadProcessInstance | engine/src/main/java/org/camunda/bpm/engine/impl/persistence/entity/AuthorizationManager.java:244-259 | one list query of exactly two checks: READ on the instance id with a null noAuthFound, then READ_INSTANCES on the definition key with noAuthFound 0 |
| AuthorizationManager.CheckUpdateProcessInstance | engine/src/main/java/org/camunda/bpm/engine/impl/persistence/entity/AuthorizationManager.java:268-283 | one list query of exactly two checks: UPDATE on the instance id, then UPDATE_INSTANCES on the definition key with noAuthFound 0 |
| AuthorizationManager.CheckDeleteProcessInstance | engine/src/main/java/org/camunda/bpm/engine/impl/persistence/entity/AuthorizationManager.java:297-312 | one list query of exactly two checks: DELETE on the instance id, then DELETE_INSTANCES on the definition key with noAuthFound 0 |
| AuthorizationManager.EitherGrantSuffices | engine/src/test/java/org/camunda/bpm/engine/test/authorization/ProcessInstanceAuthorizationTest.java:397-437 | for a store that grants a list when any check in it is granted, the read, update and delete checks pass iff the instance-level grant or the definition-level `*_INSTANCES` grant holds |
| AuthorizationManager.CheckProcessInstanceById | engine/src/main/java/org/camunda/bpm/engine/impl/persistence/entity/AuthorizationManager.java:239-242 | the execution is looked up first, with authentication on; if none is found the check ends in a null dereference, even with the gate closed; otherwise the found execution's check follows the lookup |
| AuthorizationManager.CheckReadProcessInstanceById | engine/src/main/java/org/camunda/bpm/engine/impl/persistence/entity/AuthorizationManager.java:239-242 | the execution is looked up first, with authentication on; if none is found the check ends in a null dereference after that lookup alone; otherwise one list query of READ on the found instance id and READ_INSTANCES on its definition key (noAuthFound 0) follows, with its failure |
| AuthorizationManager.CheckUpdateProcessInstanceById | engine/src/main/java/org/camunda/bpm/engine/impl/persistence/entity/AuthorizationManager.java:263-266 | the execution is looked up first, with authentication on; if none is found the check ends in a null dereference after that lookup alone; otherwise one list query of UPDATE on the found instance id and UPDATE_INSTANCES on its definition key (noAuthFound 0) follows, with its failure |
| AuthorizationManager.CheckUpdateInstancesOnProcessDefinitionByKey | engine/src/main/java/org/camunda/bpm/engine/impl/persistence/entity/AuthorizationManager.java:291-293 | gate closed: success, nothing sent; gate open: one query with the single check UPDATE_INSTANCES on the process definition with that key, and success iff the store grants it; the failure names the user, UPDATE_INSTANCES, ProcessDefinition and the key |
| AuthorizationManager.CheckUpdateInstancesOnProcessDefinitionById | engine/src/main/java/org/camunda/bpm/engine/impl/persistence/entity/AuthorizationManager.java:285-289 | the latest definition with that id is looked up first; a missing one ends in a null dereference after that lookup alone; otherwise the by-key check on its key follows |
| AuthorizationManager.ConfigureQuery | engine/src/main/java/org/camunda/bpm/engine/impl/persistence/entity/AuthorizationManager.java:161-181 | the check list is always emptied; gate open: flag true and the current user and groups; gate closed: flag false, user and groups null |
| AuthorizationManager.AddAuthorizationCheckParameter | engine/src/main/java/org/camunda/bpm/engine/impl/persistence/entity/AuthorizationManager.java:196-209 | gate open: one check is appended, with the resource type, the query parameter and the permission; gate closed: nothing changes |
| AuthorizationManager.ConfigureQueryFor | engine/src/main/java/org/camunda/bpm/engine/impl/persistence/entity/AuthorizationManager.java:191-194 | the query ends with exactly one check (resource type, parameter, permission) when the gate is open, and none when it is closed, whatever it held before |
| AuthorizationManager.ConfigureQueryWithParam | engine/src/main/java/org/camunda/bpm/engine/impl/persistence/entity/AuthorizationManager.java:187-189 | as above, with the permission READ |
| AuthorizationManager.ConfigureQueryForResource | engine/src/main/java/org/camunda/bpm/engine/impl/persistence/entity/AuthorizationManager.java:183-185 | as above, with the query parameter "RES.ID_" and the permission READ |
| AuthorizationManager.InsertAuthorization | engine/src/main/java/org/camunda/bpm/engine/impl/persistence/entity/AuthorizationManager.java:59-62 | CREATE on authorizations is checked; the insert is recorded iff the check passed |
| AuthorizationManager.UpdateAuthorization | engine/src/main/java/org/camunda/bpm/engine/impl/persistence/entity/AuthorizationManager.java:86-89 | UPDATE on that authorization is checked; the merge is recorded iff the check passed |
| AuthorizationManager.DeleteAuthorizationsByResourceId | engine/src/main/java/org/camunda/bpm/engine/impl/persistence/entity/AuthorizationManager.java:213-226 | a null id fails with an illegal argument whether or not authorization is enabled; otherwise the delete is issued iff authorization is enabled |
| AuthorizationManager.DeleteAuthorization | engine/src/main/java/org/camunda/bpm/engine/impl/persistence/entity/AuthorizationManager.java:91-95 | DELETE on that authorization is checked first; then the grants on it are deleted (only when enabled); then the entity is deleted; a refused check or a null id stops it |
| SetStateCommands.FirstSelector | engine/src/main/java/org/camunda/bpm/engine/impl/cmd/AbstractSetJobStateCmd.java:52-74 | none iff all five selectors are null; otherwise a selector that is present, and every selector of higher priority is null |
| SetStateCommands.CheckParameters | engine/src/main/java/org/camunda/bpm/engine/impl/cmd/AbstractSetJobStateCmd.java:41-45 | a job command fails iff all five selectors are null, with the no-selector error; another variant fails iff its own verdict says so |
| SetStateCommands.UpdateEffects | engine/src/main/java/org/camunda/bpm/engine/impl/cmd/AbstractSetJobStateCmd.java:52-74 | a job command issues no update iff it has no selector, and otherwise exactly one update, for its first selector in priority order |
| SetStateCommands.DelayedExecutionJobHandlerType | engine/src/main/java/org/camunda/bpm/engine/impl/cmd/AbstractSetStateCmd.java:89-91 | the template default is null: the job variant supplies no handler type; another variant supplies its own |
| SetStateCommands.JobHandlerConfiguration | engine/src/main/java/org/camunda/bpm/engine/impl/cmd/AbstractSetStateCmd.java:93-95 | the template default is null: the job variant supplies no handler configuration; another variant supplies its own |
| SetStateCommands.LogEntryFor | engine/src/main/java/org/camunda/bpm/engine/impl/cmd/AbstractSetJobStateCmd.java:76-80 | the job log entry carries the operation, all five selectors whether or not they were used, and the change of the suspensionState property from null to the new state's name |
| SetStateCommands.RunFailsOnlyOnParameters | engine/src/main/java/org/camunda/bpm/engine/impl/cmd/AbstractSetStateCmd.java:39-63 | the template fails only with a parameter-check failure, its own or that of a command it cascades to, at any depth |
| SetStateCommands.RunUpdatesFirst | engine/src/main/java/org/camunda/bpm/engine/impl/cmd/AbstractSetStateCmd.java:39-53 | on the immediate path a command's own suspension update is recorded before the cascade and the log entry |
| SetStateCommands.DisabledRunNeverLogs | engine/src/main/java/org/camunda/bpm/engine/impl/cmd/AbstractSetStateCmd.java:45-60 | a command with logging disabled writes no log entry, and neither does anything it cascades to, at any depth |
| SetStateCommands.LoggedExactlyOnce | engine/src/main/java/org/camunda/bpm/engine/impl/cmd/AbstractSetStateCmd.java:39-63 | a successful top-level execution writes exactly one log entry, its own, as its last effect, whatever the cascade depth |
| SetStateCommands.ImmediateCascadeUpdatesEach | engine/src/main/java/org/camunda/bpm/engine/impl/cmd/AbstractSetStateCmd.java:42-60 | when every command of the cascade runs immediately and passes its parameter check, the trace is each command's own update exactly once, in cascade order, with no log entry from the cascaded commands (their logging is switched off), then the command's own log entry unless its logging is off |
| SetStateCommands.RunNeverQueriesStore | engine/src/main/java/org/camunda/bpm/engine/impl/cmd/AbstractSetJobStateCmd.java:47-50 | the template sends no authorization query at any depth: the job variant's empty `checkAuthorization` is not part of `execute` |
| SetStateCommands.ScheduledRunOnlySchedules | engine/src/main/java/org/camunda/bpm/engine/impl/cmd/AbstractSetStateCmd.java:54-56 | with an execution date: one timer, due at that date, with the handler type and configuration from the hooks; no update; no cascade; then the log entry unless disabled |
| SetStateCommands.ImmediateChainSchedulesNothing | engine/src/main/java/org/camunda/bpm/engine/impl/cmd/AbstractSetStateCmd.java:42-51 | on the immediate path, with no execution date anywhere in the chain, no timer is scheduled |
| SetStateCommands.ParameterFailureHasNoEffect | engine/src/main/java/org/camunda/bpm/engine/impl/cmd/AbstractSetStateCmd.java:39-40 | a failed parameter check stops the command: no update, no timer, no cascade, no log entry |
| SetStateCommands.JobCommandRun | engine/src/main/java/org/camunda/bpm/engine/impl/cmd/AbstractSetJobStateCmd.java:32-80 | a job command without a selector fails with nothing done; otherwise it makes one update for the first selector present in priority order, then logs `suspensionState` going from null to the new state's name, with all five selectors as given |
| SetStateCommands.SetStateCmd.ForJobs | engine/src/main/java/org/camunda/bpm/engine/impl/cmd/AbstractSetJobStateCmd.java:32-39 | a job command has no sub-resources, no execution date and no next command |
| SetStateCommands.SetStateCmd.constructor | engine/src/main/java/org/camunda/bpm/engine/impl/cmd/AbstractSetStateCmd.java:34-37 | the command keeps its sub-resource flag and its execution date, and starts with logging enabled |
| SetStateCommands.SetStateCmd.DisableLogUserOperation | engine/src/main/java/org/camunda/bpm/engine/impl/cmd/AbstractSetStateCmd.java:65-71 | the flag is true afterwards, so a second call changes nothing |
| SetStateCommands.SetStateCmd.UpdateSuspensionState | engine/src/main/java/org/camunda/bpm/engine/impl/cmd/AbstractSetJobStateCmd.java:52-74 | the if-else chain records exactly the update `UpdateEffects` gives |
| SetStateCommands.SetStateCmd.ScheduleSuspensionStateUpdate | engine/src/main/java/org/camunda/bpm/engine/impl/cmd/AbstractSetStateCmd.java:77-99 | one timer is scheduled, due at the execution date; its handler type and configuration come from the hooks, which are null unless a variant overrides them |
| SetStateCommands.SetStateCmd.LogUserOperation | engine/src/main/java/org/camunda/bpm/engine/impl/cmd/AbstractSetJobStateCmd.java:76-80 | one log entry, the variant's |
| SetStateCommands.SetStateCmd.Execute | engine/src/main/java/org/camunda/bpm/engine/impl/cmd/AbstractSetStateCmd.java:39-63 | the trace grows by exactly what `Run` gives for the command's chain and its own logging flag; the result is `Run`'s; a cascaded next command has its logging disabled |
| MessageCommands.DeliveredOnlyAfterUpdateCheck | engine/src/main/java/org/camunda/bpm/engine/impl/cmd/MessageEventReceivedCmd.java:54-95 | delivery succeeds iff the execution id is given, exactly one subscription matches, and the update check on its process instance passes; then the trace is: the lookup (without authentication), the check, and one delivery of the variables with the async flag false; on failure nothing is delivered |
| MessageCommands.ReceiveMessage | engine/src/main/java/org/camunda/bpm/engine/impl/cmd/MessageEventReceivedCmd.java:53-80 | a null execution id fails with no effect; otherwise the subscription lookup, without authentication, comes first; no subscription or more than one fails after that lookup alone, with the empty-collection or the not-exactly-one error |
| MessageCommands.RefusedUpdateIsReported | engine/src/main/java/org/camunda/bpm/engine/impl/cmd/MessageEventReceivedCmd.java:84-88 | with exactly one subscription, a refused update check ends the command with the check's failure; the trace holds only the subscription lookup followed by the check's own effects |
| MessageCommands.CheckUpdateCarriesNoDelivery | engine/src/main/java/org/camunda/bpm/engine/impl/cmd/MessageEventReceivedCmd.java:86-88 | the update check itself delivers nothing |
| MessageCommands.DeliveryNeedsUpdateGrant | engine/src/test/java/org/camunda/bpm/engine/test/authorization/ProcessInstanceAuthorizationTest.java:874-956 | for a store that grants a list when any check in it is granted, delivery succeeds iff UPDATE on the instance or UPDATE_INSTANCES on its definition is granted |
| MessageCommands.MessageEventReceivedCmd.Execute | engine/src/main/java/org/camunda/bpm/engine/impl/cmd/MessageEventReceivedCmd.java:53-98 | the trace grows by exactly `ReceiveMessage`'s effects; with a name the lookup is by type, name and execution, without one it is by execution and type |
| MessageCommands.StartCreatesOnlyAfterCreateCheck | engine/src/main/java/org/camunda/bpm/engine/impl/cmd/StartProcessInstanceByMessageCmd.java:48-81 | success requires the name, the subscription, its definition id and the deployed definition, and both create checks passing; the instance is of that definition, has the business key, starts at the subscription's activity, and is created, then started, once; no instance is created on failure |
| MessageCommands.StartByMessage | engine/src/main/java/org/camunda/bpm/engine/impl/cmd/StartProcessInstanceByMessageCmd.java:48-71 | a null name fails with no effect; otherwise the subscription lookup comes first; a missing subscription or definition id fails after it alone, a missing deployed definition after the two lookups alone, so no authorization query is sent; every lookup runs without authentication |
| MessageCommands.StartChecksBeforeCreating | engine/src/main/java/org/camunda/bpm/engine/impl/cmd/StartProcessInstanceByMessageCmd.java:62-81 | once subscription, definition id and definition are found, the trace is the two lookups, then the create check's queries; a refused check ends there with its failure (so the CREATE failure is reported first); a passing one is followed only by the creation and the start of the instance of that definition, business key and activity |
| MessageCommands.CreateCheckCarriesNoCreation | engine/src/main/java/org/camunda/bpm/engine/impl/cmd/StartProcessInstanceByMessageCmd.java:74-75 | the create check itself creates nothing |
| MessageCommands.StartNeedsBothCreateGrants | engine/src/test/java/org/camunda/bpm/engine/test/authorization/ProcessInstanceAuthorizationTest.java:244-304 | for a store that grants a list when any check in it is granted, starting by message succeeds iff both CREATE on process instances and CREATE_INSTANCES on the definition key are granted |
| MessageCommands.StartProcessInstanceByMessageCmd.Execute | engine/src/main/java/org/camunda/bpm/engine/impl/cmd/StartProcessInstanceByMessageCmd.java:48-81 | the trace grows by exactly `StartByMessage`'s effects, and the returned instance is its result; both lookups run without authentication |
| MessageCommands.FirstRejected | engine/src/main/java/org/camunda/bpm/engine/impl/cmd/CorrelateAllMessageCmd.java:64-67 | none iff every correlation result passes its check; otherwise a failing result, and every earlier result passes |
| MessageCommands.CorrelateAllChecksBeforeDispatch | engine/src/main/java/org/camunda/bpm/engine/impl/cmd/CorrelateAllMessageCmd.java:54-75 | success iff every result passes its check; on failure nothing is dispatched and the failure is the first refused result's; on success every result is checked, in order, before the first dispatch, and then each is dispatched exactly once, in order: execution results to the execution, all others to a new instance |
| MessageCommands.CorrelateAllWithNoMatchSucceeds | engine/src/main/java/org/camunda/bpm/engine/impl/cmd/CorrelateAllMessageCmd.java:65-77 | when nothing correlates, the command succeeds after its lookup, with no check and no dispatch |
| MessageCommands.CorrelateAllLooksUpFirst | engine/src/main/java/org/camunda/bpm/engine/impl/cmd/CorrelateAllMessageCmd.java:50-62 | with all four criteria null the command fails with no effect, naming the four criteria; otherwise its first effect is the correlation lookup of the name and the correlation set, without authentication |
| MessageCommands.CorrelateAllMessageCmd.Execute | engine/src/main/java/org/camunda/bpm/engine/impl/cmd/CorrelateAllMessageCmd.java:50-78 | the two loops record exactly `CorrelateAll`'s effects; with all four criteria null it fails before the lookup; the lookup uses the correlation set (business key, process instance id, correlation keys) and runs without authentication |
| MessageCommands.CorrelateAllMessageCmd.DispatchAll | engine/src/main/java/org/camunda/bpm/engine/impl/cmd/CorrelateAllMessageCmd.java:69-75 | the trace grows by one dispatch per result, in order, each carrying the command's variables: a trigger of its execution for an execution result, an instantiation of its definition otherwise |
| TaskCommands.TaskChangedOnceAfterCheck | engine/src/main/java/org/camunda/bpm/engine/impl/cmd/SetTaskPriorityCmd.java:43-63 | success iff the id is given, the task exists and the update check passes; then the trace is: the lookup (without authentication), the check, one change, and one history detail of the command's operation; otherwise no change and no detail; a null id fails before the lookup |
| TaskCommands.TaskUpdate | engine/src/main/java/org/camunda/bpm/engine/impl/cmd/SetTaskPriorityCmd.java:43-57 | a null id fails with no effect; otherwise the lookup, without authentication, comes first; a missing task fails after it alone; a refused update check fails after the lookup and the check, with the check's failure |
| TaskCommands.SetTaskPriorityCmd.Execute | engine/src/main/java/org/camunda/bpm/engine/impl/cmd/SetTaskPriorityCmd.java:43-63 | the trace grows by `TaskUpdate`'s effects; on success the task's priority is the given one, on failure it is unchanged; no other task field changes and no other task is touched |
| TaskCommands.DelegateTaskCmd.Execute | engine/src/main/java/org/camunda/bpm/engine/impl/cmd/DelegateTaskCmd.java:44-64 | the trace grows by `TaskUpdate`'s effects for a delegation to the given user: the lookup, then the check, then one delegation, then one "Delegate" detail; the delegation and detail happen only on success |
| Engine.TaskEntity.SetPriority | engine/src/main/java/org/camunda/bpm/engine/impl/cmd/SetTaskPriorityCmd.java:58 | the priority is set; name, assignee and owner are unchanged |

## Left out

- The store's grant predicate (`isUserAuthorizedForResource`, an SQL statement) is an oracle. GRANT/DENY/ANY precedence and the meaning of `noAuthFound` are not modelled. The OR-of-checks behaviour seen in the tests is an explicit assumption, `GrantsAny`.
- The numeric codes of permissions and resource types are placeholders, because Permissions.java and Resources.java are not part of this model. The names are the ones the engine prints.
- `createNewAuthorization` and the `select*` query methods of the authorization manager are not modelled. They only forward to `checkAuthorization` and `configureQuery`, which are modelled, and to the database.
- `runWithoutAuthentication` is recorded as a lookup flag on the lookup effect. Switching the authentication off and restoring it afterwards is not modelled.
- The message text of the engine's exceptions is not modelled. Errors carry their kind and the fields they name.
- Timer firing and the job executor are not modelled. Only the scheduled timer's three fields are recorded.
- The job manager, the operation log, the process graph and the history are recorded as effects only:
  - `eventReceived`, `createProcessInstance`, `start`, `triggerExecution`, `instantiateProcess`;
  - `delegate` and `createHistoricTaskDetails`.
  
  Their own behaviour and failures are not part of this model. `findActivity` is treated as returning the subscription's activity id.
- TaskCommands.DelegateTaskCmd.Execute: it records the delegation but does not change the task's assignee, owner or delegation state, because `TaskEntity.delegate` is not part of this model.
- `AbstractCorrelateMessageCmd.checkAuthorization` and `AuthorizationManager.checkUpdateTask` are not part of this model. They are given as verdicts of the collaborators, and each call is recorded as an effect.
- `CorrelationHandler.correlateMessages` is a collaborator function. Its result list is taken as given.
- MessageCommands.MessageEventReceivedCmd.Execute: the payload is a value copy of the variables. Aliasing between the copy and the caller's map is not modelled (Dafny maps are values).
- Transactions are not modelled. When a nested set-state command fails, the effects its parent had already recorded stay in the trace. The engine would roll them back.
- The set-state variants other than the job variant are not part of this model. They are represented by `Variant.Other`, which gives their parameter verdict, new state, log operation and timer hooks. Their updates are recorded as `ResourcesOf(kind)`.
- `getNextCommand` is modelled as a `next` object fixed when the command is built. In the engine, a variant builds a new command on each call.
- The priority is a mathematical integer. It is only stored, so Java's 32-bit width never matters.
- `Serializable`, `serialVersionUID`, and the storage formats of history and log entries are not modelled.
- The history operation names "SetPriority" and "Delegate" are the values of UserOperationLogEntry's constants. That file is not part of this model.
