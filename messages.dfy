/**
 * The message commands: delivering a message to one execution's subscription, starting
 * a process instance by a message start event, and correlating a message to every
 * matching execution or definition. Each looks its targets up without authentication,
 * checks authorization on what it found, and only then acts.
 */
module MessageCommands {
  import opened Common
  import opened Permissions
  import opened Engine
  import opened AuthorizationManager

  predicate IsDelivery(e: Effect) { e.EventReceived? }
  predicate IsInstanceCreation(e: Effect) { e.ProcessInstanceCreated? }
  predicate IsDispatch(e: Effect) { e.ExecutionTriggered? || e.ProcessInstantiated? }

  // ---------------------------------------------------------------- message event received

  /** The subscription lookup: by name and execution when a name is given, by execution otherwise. */
  function SubscriptionLookup(messageName: Option<string>, executionId: string): Lookup {
    if messageName.Some? then SubscriptionsByNameAndExecution(MessageEventType, messageName.value, executionId)
    else SubscriptionsByExecutionAndType(executionId, MessageEventType)
  }

  function FoundSubscriptions(c: Collaborators, messageName: Option<string>, executionId: string)
    : seq<EventSubscription>
  {
    if messageName.Some? then c.subscriptionsByNameAndExecution(MessageEventType, messageName.value, executionId)
    else c.subscriptionsByExecutionAndType(executionId, MessageEventType)
  }

  /**
   * messageEventReceived: what the command records and whether it fails. A null
   * execution id fails before anything is looked up; otherwise the subscriptions are
   * looked up first, without authentication, and anything but exactly one is an error
   * raised before any authorization check.
   */
  function ReceiveMessage(s: AuthSetup, c: Collaborators, messageName: Option<string>,
                          executionId: Option<string>, processVariables: Option<Variables>): (o: Outcome<()>)
    ensures executionId.None? ==> o == Outcome([], Err(NullValue("executionId", None)))
    ensures executionId.Some? ==>
      |o.effects| >= 1 && o.effects[0] == Looked(SubscriptionLookup(messageName, executionId.value), true)
    ensures executionId.Some? && |FoundSubscriptions(c, messageName, executionId.value)| == 0 ==>
      o == Outcome([Looked(SubscriptionLookup(messageName, executionId.value), true)],
                   Err(EmptyCollection("eventSubscriptions", executionId)))
    ensures executionId.Some? && |FoundSubscriptions(c, messageName, executionId.value)| > 1 ==>
      o == Outcome([Looked(SubscriptionLookup(messageName, executionId.value), true)],
                   Err(NotExactly("eventSubscriptions", 1, executionId)))
  {
    if executionId.None? then Outcome([], Err(NullValue("executionId", None)))
    else
      var looked := [Looked(SubscriptionLookup(messageName, executionId.value), true)];
      var found := FoundSubscriptions(c, messageName, executionId.value);
      if |found| == 0 then Outcome(looked, Err(EmptyCollection("eventSubscriptions", executionId)))
      else if |found| != 1 then Outcome(looked, Err(NotExactly("eventSubscriptions", 1, executionId)))
      else
        var checked := CheckUpdateProcessInstanceById(s, c, found[0].processInstanceId);
        if checked.result.Err? then Outcome(looked + checked.effects, checked.result)
        else Outcome(looked + checked.effects + [EventReceived(found[0].id, processVariables, false)], Ok(()))
  }

  /**
   * A message is delivered exactly when the execution has exactly one matching
   * subscription and the update check on its process instance passes; then it is
   * delivered once, to that subscription, with a copy of the variables, after the check.
   */
  lemma DeliveredOnlyAfterUpdateCheck(s: AuthSetup, c: Collaborators, messageName: Option<string>,
                                      executionId: Option<string>, processVariables: Option<Variables>)
    ensures var o := ReceiveMessage(s, c, messageName, executionId, processVariables);
      o.result.Ok? <==>
        && executionId.Some?
        && |FoundSubscriptions(c, messageName, executionId.value)| == 1
        && CheckUpdateProcessInstanceById(
             s, c, FoundSubscriptions(c, messageName, executionId.value)[0].processInstanceId).result.Ok?
    ensures var o := ReceiveMessage(s, c, messageName, executionId, processVariables);
      o.result.Ok? ==>
        var sub := FoundSubscriptions(c, messageName, executionId.value)[0];
        && o.effects == [Looked(SubscriptionLookup(messageName, executionId.value), true)] +
                        CheckUpdateProcessInstanceById(s, c, sub.processInstanceId).effects +
                        [EventReceived(sub.id, processVariables, false)]
        && Count(o.effects, IsDelivery) == 1
    ensures var o := ReceiveMessage(s, c, messageName, executionId, processVariables);
      o.result.Err? ==> Count(o.effects, IsDelivery) == 0
  {
    var o := ReceiveMessage(s, c, messageName, executionId, processVariables);
    if executionId.Some? {
      var looked := [Looked(SubscriptionLookup(messageName, executionId.value), true)];
      CountNone(looked, IsDelivery);
      var found := FoundSubscriptions(c, messageName, executionId.value);
      if |found| == 1 {
        var checked := CheckUpdateProcessInstanceById(s, c, found[0].processInstanceId);
        CheckUpdateCarriesNoDelivery(s, c, found[0].processInstanceId);
        CountAppend(looked, checked.effects, IsDelivery);
        if checked.result.Ok? {
          var delivered := [EventReceived(found[0].id, processVariables, false)];
          CountAppend(looked + checked.effects, delivered, IsDelivery);
        }
      }
    }
  }

  /**
   * A refused update check ends the command right after it: the trace holds the
   * subscription lookup and the check's own effects, and the check's failure is reported.
   */
  lemma RefusedUpdateIsReported(s: AuthSetup, c: Collaborators, messageName: Option<string>,
                                executionId: string, processVariables: Option<Variables>)
    requires |FoundSubscriptions(c, messageName, executionId)| == 1
    ensures var checked :=
              CheckUpdateProcessInstanceById(s, c, FoundSubscriptions(c, messageName, executionId)[0].processInstanceId);
            checked.result.Err? ==>
              ReceiveMessage(s, c, messageName, Some(executionId), processVariables) ==
                Outcome([Looked(SubscriptionLookup(messageName, executionId), true)] + checked.effects,
                        checked.result)
  {
  }

  /** The update check's effects are a lookup and store queries, never a delivery. */
  lemma CheckUpdateCarriesNoDelivery(s: AuthSetup, c: Collaborators, processInstanceId: Option<string>)
    ensures Count(CheckUpdateProcessInstanceById(s, c, processInstanceId).effects, IsDelivery) == 0
  {
    var o := CheckUpdateProcessInstanceById(s, c, processInstanceId);
    if c.executionById(processInstanceId).Some? {
      var checked := CheckProcessInstancePermission(s, Update, UpdateInstances,
                                                    c.executionById(processInstanceId).value);
      assert o.effects == [o.effects[0]] + checked.effects;
    }
    CountNone(o.effects, IsDelivery);
  }

  /**
   * Under an OR-answering store, delivery to a subscription whose process instance is
   * found needs the UPDATE grant on that instance or UPDATE_INSTANCES on its definition.
   */
  lemma DeliveryNeedsUpdateGrant(s: AuthSetup, c: Collaborators, messageName: Option<string>,
                                 executionId: string, processVariables: Option<Variables>,
                                 granted: (string, seq<string>, Check) -> bool)
    requires Enforced(s) && GrantsAny(s.store, granted)
    requires |FoundSubscriptions(c, messageName, executionId)| == 1
    requires c.executionById(FoundSubscriptions(c, messageName, executionId)[0].processInstanceId).Some?
    ensures var execution :=
              c.executionById(FoundSubscriptions(c, messageName, executionId)[0].processInstanceId).value;
            var a := s.currentAuthentication.value;
            ReceiveMessage(s, c, messageName, Some(executionId), processVariables).result.Ok? <==>
              || granted(a.userId, a.groupIds,
                         Check(Update.Value(), ProcessInstance.ResourceType(),
                               Some(execution.processInstanceId), None, None))
              || granted(a.userId, a.groupIds,
                         Check(UpdateInstances.Value(), ProcessDefinition.ResourceType(),
                               Some(execution.processDefinitionKey), None, Some(0)))
  {
    var execution := c.executionById(FoundSubscriptions(c, messageName, executionId)[0].processInstanceId).value;
    EitherGrantSuffices(s, Update, UpdateInstances, execution, granted);
  }

  /** MessageEventReceivedCmd. */
  class MessageEventReceivedCmd {
    const executionId: Option<string>
    const processVariables: Option<Variables>
    const messageName: Option<string>

    constructor (messageName: Option<string>, executionId: Option<string>,
                 processVariables: Option<Variables>)
      ensures this.messageName == messageName && this.executionId == executionId
      ensures this.processVariables == processVariables
    {
      this.executionId := executionId;
      this.messageName := messageName;
      this.processVariables := processVariables;
    }

    method Execute(cc: CommandContext) returns (r: Result<()>)
      modifies cc
      ensures var o := ReceiveMessage(cc.authorization, cc.collaborators, messageName, executionId,
                                      processVariables);
              cc.trace == old(cc.trace) + o.effects && r == o.result
    {
      if executionId.None? {
        return Err(NullValue("executionId", None));
      }
      var eventSubscriptions: seq<EventSubscription>;
      if messageName.Some? {
        eventSubscriptions := cc.collaborators.subscriptionsByNameAndExecution(
                                MessageEventType, messageName.value, executionId.value);
      } else {
        eventSubscriptions := cc.collaborators.subscriptionsByExecutionAndType(
                                executionId.value, MessageEventType);
      }
      assert eventSubscriptions == FoundSubscriptions(cc.collaborators, messageName, executionId.value);
      cc.trace := cc.trace + [Looked(SubscriptionLookup(messageName, executionId.value), true)];
      if |eventSubscriptions| == 0 {
        return Err(EmptyCollection("eventSubscriptions", executionId));
      }
      if |eventSubscriptions| != 1 {
        return Err(NotExactly("eventSubscriptions", 1, executionId));
      }
      var eventSubscription := eventSubscriptions[0];
      var checked := CheckUpdateProcessInstanceById(cc.authorization, cc.collaborators,
                                                    eventSubscription.processInstanceId);
      cc.trace := cc.trace + checked.effects;
      if checked.result.Err? {
        return checked.result;
      }
      var payload: Option<Variables> := None;
      if processVariables.Some? {
        payload := Some(processVariables.value);
      }
      cc.trace := cc.trace + [EventReceived(eventSubscription.id, payload, false)];
      r := Ok(());
    }
  }

  // ---------------------------------------------------------------- start by message

  /**
   * startProcessInstanceByMessage: what the command records and what it returns. A null
   * name fails before any lookup; a missing subscription, definition id or deployed
   * definition fails after the lookups alone, before any authorization query; every
   * lookup runs without authentication.
   */
  function StartByMessage(s: AuthSetup, c: Collaborators, messageName: Option<string>,
                          businessKey: Option<string>, processVariables: Option<Variables>)
    : (o: Outcome<NewProcessInstance>)
    ensures messageName.None? ==> o == Outcome([], Err(NullValue("message name", None)))
    ensures messageName.Some? ==>
      |o.effects| >= 1 && o.effects[0] == Looked(MessageStartSubscriptionByName(messageName.value), true)
    ensures messageName.Some? && c.messageStartSubscriptionByName(messageName.value).None? ==>
      o == Outcome([Looked(MessageStartSubscriptionByName(messageName.value), true)],
                   Err(NullValue("messageEventSubscription", messageName)))
    ensures messageName.Some? && c.messageStartSubscriptionByName(messageName.value).Some? &&
            c.messageStartSubscriptionByName(messageName.value).value.configuration.None? ==>
      o == Outcome([Looked(MessageStartSubscriptionByName(messageName.value), true)],
                   Err(NullValue("processDefinitionId", messageName)))
    ensures messageName.Some? && c.messageStartSubscriptionByName(messageName.value).Some? &&
            c.messageStartSubscriptionByName(messageName.value).value.configuration.Some? ==>
      var definitionId := c.messageStartSubscriptionByName(messageName.value).value.configuration.value;
      && |o.effects| >= 2 && o.effects[1] == Looked(DeployedDefinitionById(definitionId), true)
      && (c.deployedDefinitionById(definitionId).None? ==>
            o == Outcome([Looked(MessageStartSubscriptionByName(messageName.value), true),
                          Looked(DeployedDefinitionById(definitionId), true)],
                         Err(NullValue("processDefinition", Some(definitionId)))))
    ensures forall i :: 0 <= i < |o.effects| && o.effects[i].Looked? ==> o.effects[i].withoutAuthentication
  {
    if messageName.None? then Outcome([], Err(NullValue("message name", None)))
    else
      var name := messageName.value;
      var looked := [Looked(MessageStartSubscriptionByName(name), true)];
      match c.messageStartSubscriptionByName(name)
      case None => Outcome(looked, Err(NullValue("messageEventSubscription", messageName)))
      case Some(subscription) =>
        match subscription.configuration
        case None => Outcome(looked, Err(NullValue("processDefinitionId", messageName)))
        case Some(definitionId) =>
          var fetched := looked + [Looked(DeployedDefinitionById(definitionId), true)];
          match c.deployedDefinitionById(definitionId)
          case None => Outcome(fetched, Err(NullValue("processDefinition", Some(definitionId))))
          case Some(definition) =>
            var checked := CheckCreateProcessInstance(s, definition);
            if checked.result.Err? then Outcome(fetched + checked.effects, Err(checked.result.error))
            else
              var instance := NewProcessInstance(definition.id, businessKey, subscription.activityId);
              Outcome(fetched + checked.effects +
                      [ProcessInstanceCreated(instance), ProcessInstanceStarted(instance, processVariables)],
                      Ok(instance))
  }

  /**
   * Once the subscription, its definition id and the deployed definition are found, the
   * create check's queries follow the two lookups. A refused check ends the command there
   * with the check's failure; a passing one is followed by the creation and the start of
   * the new instance, and nothing else.
   */
  lemma StartChecksBeforeCreating(s: AuthSetup, c: Collaborators, name: string,
                                  businessKey: Option<string>, processVariables: Option<Variables>)
    requires c.messageStartSubscriptionByName(name).Some?
    requires c.messageStartSubscriptionByName(name).value.configuration.Some?
    requires c.deployedDefinitionById(c.messageStartSubscriptionByName(name).value.configuration.value).Some?
    ensures var subscription := c.messageStartSubscriptionByName(name).value;
            var definitionId := subscription.configuration.value;
            var definition := c.deployedDefinitionById(definitionId).value;
            var fetched := [Looked(MessageStartSubscriptionByName(name), true),
                            Looked(DeployedDefinitionById(definitionId), true)];
            var checked := CheckCreateProcessInstance(s, definition);
            var o := StartByMessage(s, c, Some(name), businessKey, processVariables);
            && (checked.result.Err? ==> o == Outcome(fetched + checked.effects, Err(checked.result.error)))
            && (checked.result.Ok? ==>
                  var instance := NewProcessInstance(definition.id, businessKey, subscription.activityId);
                  o == Outcome(fetched + checked.effects +
                               [ProcessInstanceCreated(instance), ProcessInstanceStarted(instance, processVariables)],
                               Ok(instance)))
  {
  }

  /** The create check's effects are store queries only. */
  lemma CreateCheckCarriesNoCreation(s: AuthSetup, definition: ProcessDefinitionEntity)
    ensures Count(CheckCreateProcessInstance(s, definition).effects, IsInstanceCreation) == 0
  {
    CountNone(CheckCreateProcessInstance(s, definition).effects, IsInstanceCreation);
  }

  /**
   * A start by message that succeeds has found the subscription, its definition id and
   * the deployed definition, and has passed both create checks; the instance belongs to
   * that definition, carries the business key and starts at the subscription's
   * activity, and it is created once, after the checks. A start that fails creates
   * nothing.
   */
  lemma StartCreatesOnlyAfterCreateCheck(s: AuthSetup, c: Collaborators, messageName: Option<string>,
                                         businessKey: Option<string>, processVariables: Option<Variables>)
    ensures var o := StartByMessage(s, c, messageName, businessKey, processVariables);
      o.result.Ok? ==>
        && messageName.Some?
        && c.messageStartSubscriptionByName(messageName.value).Some?
        && var subscription := c.messageStartSubscriptionByName(messageName.value).value;
           && subscription.configuration.Some?
           && c.deployedDefinitionById(subscription.configuration.value).Some?
           && var definition := c.deployedDefinitionById(subscription.configuration.value).value;
              && CheckCreateProcessInstance(s, definition).result.Ok?
              && o.result.value == NewProcessInstance(definition.id, businessKey, subscription.activityId)
              && o.effects[|o.effects| - 2..] ==
                   [ProcessInstanceCreated(o.result.value), ProcessInstanceStarted(o.result.value, processVariables)]
    ensures var o := StartByMessage(s, c, messageName, businessKey, processVariables);
      Count(o.effects, IsInstanceCreation) == (if o.result.Ok? then 1 else 0)
  {
    var o := StartByMessage(s, c, messageName, businessKey, processVariables);
    if messageName.Some? {
      var name := messageName.value;
      var looked := [Looked(MessageStartSubscriptionByName(name), true)];
      match c.messageStartSubscriptionByName(name)
      case None => CountNone(o.effects, IsInstanceCreation);
      case Some(subscription) =>
        match subscription.configuration
        case None => CountNone(o.effects, IsInstanceCreation);
        case Some(definitionId) =>
          var fetched := looked + [Looked(DeployedDefinitionById(definitionId), true)];
          CountNone(fetched, IsInstanceCreation);
          match c.deployedDefinitionById(definitionId)
          case None =>
          case Some(definition) =>
            var checked := CheckCreateProcessInstance(s, definition);
            CreateCheckCarriesNoCreation(s, definition);
            CountAppend(fetched, checked.effects, IsInstanceCreation);
            if checked.result.Ok? {
              var instance := NewProcessInstance(definition.id, businessKey, subscription.activityId);
              var tail := [ProcessInstanceCreated(instance), ProcessInstanceStarted(instance, processVariables)];
              assert Count(tail, IsInstanceCreation) == 1 by {
                assert tail == [tail[0]] + [tail[1]];
                assert [tail[0]][1..] == [];
                CountNone([tail[1]], IsInstanceCreation);
                CountAppend([tail[0]], [tail[1]], IsInstanceCreation);
              }
              CountAppend(fetched + checked.effects, tail, IsInstanceCreation);
            }
    }
  }

  /**
   * Under an OR-answering store a start by message needs both CREATE on process
   * instances and CREATE_INSTANCES on the definition's key.
   */
  lemma StartNeedsBothCreateGrants(s: AuthSetup, c: Collaborators, name: string,
                                   businessKey: Option<string>, processVariables: Option<Variables>,
                                   granted: (string, seq<string>, Check) -> bool)
    requires Enforced(s) && GrantsAny(s.store, granted)
    requires c.messageStartSubscriptionByName(name).Some?
    requires c.messageStartSubscriptionByName(name).value.configuration.Some?
    requires c.deployedDefinitionById(c.messageStartSubscriptionByName(name).value.configuration.value).Some?
    ensures var definition :=
              c.deployedDefinitionById(c.messageStartSubscriptionByName(name).value.configuration.value).value;
            var a := s.currentAuthentication.value;
            StartByMessage(s, c, Some(name), businessKey, processVariables).result.Ok? <==>
              && granted(a.userId, a.groupIds, Check(Create.Value(), ProcessInstance.ResourceType(), None, None, None))
              && granted(a.userId, a.groupIds,
                         Check(CreateInstances.Value(), ProcessDefinition.ResourceType(),
                               Some(definition.key), None, None))
  {
    var definition :=
      c.deployedDefinitionById(c.messageStartSubscriptionByName(name).value.configuration.value).value;
    CreateNeedsBothGrants(s, definition, granted);
  }

  /** StartProcessInstanceByMessageCmd. */
  class StartProcessInstanceByMessageCmd {
    const messageName: Option<string>
    const businessKey: Option<string>
    const processVariables: Option<Variables>

    constructor (messageName: Option<string>, businessKey: Option<string>,
                 processVariables: Option<Variables>)
      ensures this.messageName == messageName && this.businessKey == businessKey
      ensures this.processVariables == processVariables
    {
      this.messageName := messageName;
      this.businessKey := businessKey;
      this.processVariables := processVariables;
    }

    method Execute(cc: CommandContext) returns (r: Result<NewProcessInstance>)
      modifies cc
      ensures var o := StartByMessage(cc.authorization, cc.collaborators, messageName, businessKey,
                                      processVariables);
              cc.trace == old(cc.trace) + o.effects && r == o.result
    {
      if messageName.None? {
        return Err(NullValue("message name", None));
      }
      var messageEventSubscription := cc.collaborators.messageStartSubscriptionByName(messageName.value);
      cc.trace := cc.trace + [Looked(MessageStartSubscriptionByName(messageName.value), true)];
      if messageEventSubscription.None? {
        return Err(NullValue("messageEventSubscription", messageName));
      }
      var processDefinitionId := messageEventSubscription.value.configuration;
      if processDefinitionId.None? {
        return Err(NullValue("processDefinitionId", messageName));
      }
      var processDefinition := cc.collaborators.deployedDefinitionById(processDefinitionId.value);
      cc.trace := cc.trace + [Looked(DeployedDefinitionById(processDefinitionId.value), true)];
      if processDefinition.None? {
        return Err(NullValue("processDefinition", processDefinitionId));
      }
      var checked := CheckCreateProcessInstance(cc.authorization, processDefinition.value);
      cc.trace := cc.trace + checked.effects;
      if checked.result.Err? {
        return Err(checked.result.error);
      }
      var processInstance := NewProcessInstance(processDefinition.value.id, businessKey,
                                                messageEventSubscription.value.activityId);
      cc.trace := cc.trace + [ProcessInstanceCreated(processInstance)];
      cc.trace := cc.trace + [ProcessInstanceStarted(processInstance, processVariables)];
      r := Ok(processInstance);
    }
  }

  // ---------------------------------------------------------------- correlate all

  /** The names of the four correlation criteria, at least one of which must be present. */
  const CorrelationCriteria: seq<string> := ["messageName", "businessKey", "correlationKeys", "processInstanceId"]

  /** The position of the first correlation result whose authorization check fails. */
  function FirstRejected(c: Collaborators, results: seq<CorrelationResult>): (r: Option<nat>)
    ensures r.None? <==> forall i :: 0 <= i < |results| ==> c.checkCorrelationResult(results[i]).None?
    ensures r.Some? ==>
      && r.value < |results|
      && c.checkCorrelationResult(results[r.value]).Some?
      && forall i :: 0 <= i < r.value ==> c.checkCorrelationResult(results[i]).None?
  {
    if results == [] then None
    else if c.checkCorrelationResult(results[0]).Some? then Some(0)
    else
      match FirstRejected(c, results[1..])
      case None => None
      case Some(k) => Some(k + 1)
  }

  /** The authorization checks of the given results, as trace entries. */
  function Checked(results: seq<CorrelationResult>): (r: seq<Effect>)
    ensures |r| == |results|
  {
    seq(|results|, i requires 0 <= i < |results| => CorrelationResultChecked(results[i]))
  }

  /**
   * What a correlation result is handed to, with the command's variables: its execution,
   * or a new instance of its definition.
   */
  function Dispatch(result: CorrelationResult, processVariables: Option<Variables>): Effect {
    if result.resultType == TypeExecution then ExecutionTriggered(result, processVariables)
    else ProcessInstantiated(result, processVariables)
  }

  function Dispatched(results: seq<CorrelationResult>, processVariables: Option<Variables>): (r: seq<Effect>)
    ensures |r| == |results|
  {
    seq(|results|, i requires 0 <= i < |results| => Dispatch(results[i], processVariables))
  }

  /** correlateAll: what the command records and whether it fails. */
  function CorrelateAll(c: Collaborators, messageName: Option<string>, businessKey: Option<string>,
                        correlationKeys: Option<Variables>, processInstanceId: Option<string>,
                        processVariables: Option<Variables>): Outcome<()>
  {
    if messageName.None? && businessKey.None? && correlationKeys.None? && processInstanceId.None? then
      Outcome([], Err(AtLeastOneRequired(CorrelationCriteria)))
    else
      var correlationSet := CorrelationSet(businessKey, processInstanceId, correlationKeys);
      var looked := [Looked(CorrelateMessages(messageName, correlationSet), true)];
      var results := c.correlateMessages(messageName, correlationSet);
      match FirstRejected(c, results)
      case Some(k) =>
        Outcome(looked + Checked(results[..k + 1]),
                Err(Unauthorized(c.checkCorrelationResult(results[k]).value)))
      case None => Outcome(looked + Checked(results) + Dispatched(results, processVariables), Ok(()))
  }

  /**
   * Without any criterion correlating fails before anything is looked up; otherwise the
   * correlation lookup, without authentication, comes first.
   */
  lemma CorrelateAllLooksUpFirst(c: Collaborators, messageName: Option<string>, businessKey: Option<string>,
                                 correlationKeys: Option<Variables>, processInstanceId: Option<string>,
                                 processVariables: Option<Variables>)
    ensures var o := CorrelateAll(c, messageName, businessKey, correlationKeys, processInstanceId, processVariables);
      messageName.None? && businessKey.None? && correlationKeys.None? && processInstanceId.None? ==>
        o == Outcome([], Err(AtLeastOneRequired(CorrelationCriteria)))
    ensures var o := CorrelateAll(c, messageName, businessKey, correlationKeys, processInstanceId, processVariables);
      messageName.Some? || businessKey.Some? || correlationKeys.Some? || processInstanceId.Some? ==>
        |o.effects| >= 1 &&
        o.effects[0] == Looked(CorrelateMessages(messageName,
                                                 CorrelationSet(businessKey, processInstanceId, correlationKeys)),
                               true)
  {
  }

  lemma NoDispatchIn(results: seq<CorrelationResult>)
    ensures Count(Checked(results), IsDispatch) == 0
  {
    CountNone(Checked(results), IsDispatch);
  }

  /**
   * Every correlation result is checked before any is acted on: if one fails its check
   * nothing is dispatched and the failure is the first rejected result's; otherwise
   * each result is dispatched exactly once, in order, by its result type.
   */
  lemma CorrelateAllChecksBeforeDispatch(c: Collaborators, messageName: Option<string>,
                                         businessKey: Option<string>, correlationKeys: Option<Variables>,
                                         processInstanceId: Option<string>, processVariables: Option<Variables>)
    requires messageName.Some? || businessKey.Some? || correlationKeys.Some? || processInstanceId.Some?
    ensures var o := CorrelateAll(c, messageName, businessKey, correlationKeys, processInstanceId, processVariables);
            var results := c.correlateMessages(messageName,
                                               CorrelationSet(businessKey, processInstanceId, correlationKeys));
      && (o.result.Ok? <==> forall i :: 0 <= i < |results| ==> c.checkCorrelationResult(results[i]).None?)
      && (o.result.Err? ==> Count(o.effects, IsDispatch) == 0)
      && (o.result.Err? ==>
            && FirstRejected(c, results).Some?
            && o.result == Err(Unauthorized(c.checkCorrelationResult(results[FirstRejected(c, results).value]).value)))
      && (o.result.Ok? ==>
            && |o.effects| == 1 + 2 * |results|
            && (forall i :: 0 <= i < |results| ==> o.effects[1 + i] == CorrelationResultChecked(results[i]))
            && (forall i :: 0 <= i < |results| ==>
                  o.effects[1 + |results| + i] ==
                    (if results[i].resultType == TypeExecution then ExecutionTriggered(results[i], processVariables)
                     else ProcessInstantiated(results[i], processVariables))))
  {
    var o := CorrelateAll(c, messageName, businessKey, correlationKeys, processInstanceId, processVariables);
    var correlationSet := CorrelationSet(businessKey, processInstanceId, correlationKeys);
    var looked := [Looked(CorrelateMessages(messageName, correlationSet), true)];
    var results := c.correlateMessages(messageName, correlationSet);
    match FirstRejected(c, results)
    case Some(k) =>
      CountNone(looked, IsDispatch);
      NoDispatchIn(results[..k + 1]);
      CountAppend(looked, Checked(results[..k + 1]), IsDispatch);
    case None =>
  }

  /** When nothing matches, correlating all succeeds and acts on nothing. */
  lemma CorrelateAllWithNoMatchSucceeds(c: Collaborators, messageName: Option<string>,
                                        businessKey: Option<string>, correlationKeys: Option<Variables>,
                                        processInstanceId: Option<string>, processVariables: Option<Variables>)
    requires messageName.Some? || businessKey.Some? || correlationKeys.Some? || processInstanceId.Some?
    requires c.correlateMessages(messageName, CorrelationSet(businessKey, processInstanceId, correlationKeys)) == []
    ensures CorrelateAll(c, messageName, businessKey, correlationKeys, processInstanceId, processVariables) ==
      Outcome([Looked(CorrelateMessages(messageName, CorrelationSet(businessKey, processInstanceId, correlationKeys)),
                      true)],
              Ok(()))
  {
    var correlationSet := CorrelationSet(businessKey, processInstanceId, correlationKeys);
    var results := c.correlateMessages(messageName, correlationSet);
    assert Checked(results) == [] && Dispatched(results, processVariables) == [];
  }

  /** CorrelateAllMessageCmd. */
  class CorrelateAllMessageCmd {
    const messageName: Option<string>
    const businessKey: Option<string>
    const correlationKeys: Option<Variables>
    const processInstanceId: Option<string>
    const processVariables: Option<Variables>

    constructor (messageName: Option<string>, businessKey: Option<string>,
                 correlationKeys: Option<Variables>, processInstanceId: Option<string>,
                 processVariables: Option<Variables>)
      ensures this.messageName == messageName && this.businessKey == businessKey
      ensures this.correlationKeys == correlationKeys && this.processInstanceId == processInstanceId
      ensures this.processVariables == processVariables
    {
      this.messageName := messageName;
      this.businessKey := businessKey;
      this.correlationKeys := correlationKeys;
      this.processInstanceId := processInstanceId;
      this.processVariables := processVariables;
    }

    method Execute(cc: CommandContext) returns (r: Result<()>)
      modifies cc
      ensures var o := CorrelateAll(cc.collaborators, messageName, businessKey, correlationKeys,
                                    processInstanceId, processVariables);
              cc.trace == old(cc.trace) + o.effects && r == o.result
    {
      if messageName.None? && businessKey.None? && correlationKeys.None? && processInstanceId.None? {
        return Err(AtLeastOneRequired(CorrelationCriteria));
      }
      var correlationSet := CorrelationSet(businessKey, processInstanceId, correlationKeys);
      var correlationResults := cc.collaborators.correlateMessages(messageName, correlationSet);
      ghost var spec := CorrelateAll(cc.collaborators, messageName, businessKey, correlationKeys,
                                     processInstanceId, processVariables);
      ghost var looked := [Looked(CorrelateMessages(messageName, correlationSet), true)];
      cc.trace := cc.trace + [Looked(CorrelateMessages(messageName, correlationSet), true)];
      ghost var start := cc.trace;

      var i := 0;
      while i < |correlationResults|
        invariant 0 <= i <= |correlationResults|
        invariant cc.trace == start + Checked(correlationResults[..i])
        invariant forall j :: 0 <= j < i ==> cc.collaborators.checkCorrelationResult(correlationResults[j]).None?
      {
        var result := correlationResults[i];
        cc.trace := cc.trace + [CorrelationResultChecked(result)];
        assert Checked(correlationResults[..i + 1]) == Checked(correlationResults[..i]) + [CorrelationResultChecked(result)];
        var rejection := cc.collaborators.checkCorrelationResult(result);
        if rejection.Some? {
          assert FirstRejected(cc.collaborators, correlationResults) == Some(i);
          assert spec == Outcome(looked + Checked(correlationResults[..i + 1]), Err(Unauthorized(rejection.value)));
          return Err(Unauthorized(rejection.value));
        }
        i := i + 1;
      }
      assert correlationResults[..i] == correlationResults;
      assert FirstRejected(cc.collaborators, correlationResults).None?;
      assert spec == Outcome(looked + Checked(correlationResults) + Dispatched(correlationResults, processVariables), Ok(()));

      DispatchAll(cc, correlationResults, processVariables);
      r := Ok(());
    }

    /** The second loop: each result is handed, with the variables, to its execution or to a new instance, in order. */
    static method DispatchAll(cc: CommandContext, correlationResults: seq<CorrelationResult>,
                              processVariables: Option<Variables>)
      modifies cc
      ensures cc.trace == old(cc.trace) + Dispatched(correlationResults, processVariables)
    {
      ghost var checkedAll := cc.trace;
      var i := 0;
      while i < |correlationResults|
        invariant 0 <= i <= |correlationResults|
        invariant cc.trace == checkedAll + Dispatched(correlationResults[..i], processVariables)
      {
        var result := correlationResults[i];
        if result.resultType == TypeExecution {
          cc.trace := cc.trace + [ExecutionTriggered(result, processVariables)];
        } else {
          cc.trace := cc.trace + [ProcessInstantiated(result, processVariables)];
        }
        assert Dispatched(correlationResults[..i + 1], processVariables) ==
               Dispatched(correlationResults[..i], processVariables) + [Dispatch(result, processVariables)];
        i := i + 1;
      }
      assert correlationResults[..i] == correlationResults;
    }
  }
}
