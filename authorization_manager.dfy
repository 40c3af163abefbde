/**
 * The authorization manager: the fail-open gate, single and list checks sent to the
 * authorization store, the canned process-instance compositions, the configuration of
 * authorization-aware queries, and the writes to the authorization store.
 *
 * The decisions are functions: they return the store queries they send (as trace
 * entries) and either success or the authorization failure they raise.
 */
module AuthorizationManager {
  import opened Common
  import opened Permissions
  import opened Engine

  // ---------------------------------------------------------------- decisions

  /** The check that the permission/resource/id overloads build. */
  function ResourceCheck(permission: Permission, resource: Resource, resourceId: Option<string>): Check {
    DefaultCheck.(authPerms := permission.Value(), authResourceType := resource.ResourceType(),
                  authResourceId := resourceId)
  }

  /** A boolean decision and the store queries it sent. */
  datatype Decision = Decision(authorized: bool, effects: seq<Effect>)

  /** isAuthorized(userId, groupIds, checks): the whole list goes to one store query. */
  function IsUserAuthorized(store: StoreOracle, userId: string, groupIds: seq<string>,
                            checks: seq<Check>): (d: Decision)
    ensures |d.effects| == 1 && d.effects[0].StoreQueried?
    ensures d.effects[0].query.authUserId == userId
    ensures d.effects[0].query.authGroupIds == groupIds
    ensures d.effects[0].query.authCheckParameters == checks
    ensures d.authorized <==> store(d.effects[0].query)
  {
    var query := AuthorizationCheck(userId, groupIds, checks);
    Decision(store(query), [StoreQueried(query)])
  }

  /** isAuthorized(userId, groupIds, permission, resource, resourceId): a list of one check. */
  function IsUserAuthorizedFor(store: StoreOracle, userId: string, groupIds: seq<string>,
                               permission: Permission, resource: Resource,
                               resourceId: Option<string>): (d: Decision)
    ensures d == IsUserAuthorized(store, userId, groupIds,
                   [Check(permission.Value(), resource.ResourceType(), resourceId, None, None)])
  {
    IsUserAuthorized(store, userId, groupIds, [ResourceCheck(permission, resource, resourceId)])
  }

  /** isAuthorized(permission, resource, resourceId) for the current authentication. */
  function IsAuthorized(s: AuthSetup, permission: Permission, resource: Resource,
                        resourceId: Option<string>): (d: Decision)
    ensures !Enforced(s) ==> d.authorized && d.effects == []
    ensures Enforced(s) ==>
      var q := CurrentQuery(s, [Check(permission.Value(), resource.ResourceType(), resourceId, None, None)]);
      d.effects == [StoreQueried(q)] && (d.authorized <==> s.store(q))
  {
    if Enforced(s) then
      IsUserAuthorizedFor(s.store, s.currentAuthentication.value.userId,
                          s.currentAuthentication.value.groupIds, permission, resource, resourceId)
    else
      Decision(true, [])
  }

  /** checkAuthorization(list): one store query; raises iff the store says no. */
  function CheckAuthorizations(s: AuthSetup, checks: seq<Check>): (o: Outcome<()>)
    ensures !Enforced(s) ==> o == Outcome([], Ok(()))
    ensures Enforced(s) ==> o.effects == [StoreQueried(CurrentQuery(s, checks))]
    ensures Enforced(s) ==> (o.result.Ok? <==> s.store(CurrentQuery(s, checks)))
    ensures o.result.Err? ==>
      Enforced(s) &&
      o.result.error == Unauthorized(MissingAnyOf(s.currentAuthentication.value.userId, checks))
  {
    if Enforced(s) then
      var a := s.currentAuthentication.value;
      var d := IsUserAuthorized(s.store, a.userId, a.groupIds, checks);
      if d.authorized then Outcome(d.effects, Ok(()))
      else Outcome(d.effects, Err(Unauthorized(MissingAnyOf(a.userId, checks))))
    else
      Outcome([], Ok(()))
  }

  /**
   * checkAuthorization(permission, resource, resourceId): one store query with one check;
   * the failure names the user, the permission, the resource and the id.
   */
  function CheckAuthorization(s: AuthSetup, permission: Permission, resource: Resource,
                              resourceId: Option<string>): (o: Outcome<()>)
    ensures !Enforced(s) ==> o == Outcome([], Ok(()))
    ensures Enforced(s) ==>
      var q := CurrentQuery(s, [Check(permission.Value(), resource.ResourceType(), resourceId, None, None)]);
      o.effects == [StoreQueried(q)] && (o.result.Ok? <==> s.store(q))
    ensures o.result.Err? ==>
      Enforced(s) &&
      o.result.error == Unauthorized(MissingPermission(s.currentAuthentication.value.userId,
                                                       permission.Name(), resource.ResourceName(),
                                                       resourceId))
  {
    if Enforced(s) then
      var a := s.currentAuthentication.value;
      var d := IsUserAuthorizedFor(s.store, a.userId, a.groupIds, permission, resource, resourceId);
      if d.authorized then Outcome(d.effects, Ok(()))
      else Outcome(d.effects,
                   Err(Unauthorized(MissingPermission(a.userId, permission.Name(),
                                                      resource.ResourceName(), resourceId))))
    else
      Outcome([], Ok(()))
  }

  /** checkAuthorization(permission, resource): the same check with a null resource id. */
  function CheckAuthorizationOnType(s: AuthSetup, permission: Permission, resource: Resource): (o: Outcome<()>)
    ensures !Enforced(s) ==> o == Outcome([], Ok(()))
    ensures Enforced(s) ==>
      var q := CurrentQuery(s, [Check(permission.Value(), resource.ResourceType(), None, None, None)]);
      o.effects == [StoreQueried(q)] && (o.result.Ok? <==> s.store(q))
    ensures o.result.Err? ==>
      Enforced(s) &&
      o.result.error == Unauthorized(MissingPermission(s.currentAuthentication.value.userId,
                                                       permission.Name(), resource.ResourceName(), None))
  {
    CheckAuthorization(s, permission, resource, None)
  }

  /** With the gate closed nothing is checked: every decision passes and no query is sent. */
  lemma FailOpen(s: AuthSetup, permission: Permission, resource: Resource,
                 resourceId: Option<string>, checks: seq<Check>)
    requires !Enforced(s)
    ensures IsAuthorized(s, permission, resource, resourceId) == Decision(true, [])
    ensures CheckAuthorization(s, permission, resource, resourceId) == Outcome([], Ok(()))
    ensures CheckAuthorizations(s, checks) == Outcome([], Ok(()))
  {
  }

  /** The single-resource check sends the same query as the list form given one check. */
  lemma SingleCheckIsListOfOne(s: AuthSetup, permission: Permission, resource: Resource,
                               resourceId: Option<string>)
    ensures var single := CheckAuthorization(s, permission, resource, resourceId);
            var list := CheckAuthorizations(s, [ResourceCheck(permission, resource, resourceId)]);
            single.effects == list.effects && single.result.Ok? == list.result.Ok?
  {
  }

  // ---------------------------------------------------------------- canned checks

  /** checkCreateProcessInstance: CREATE on process instances, then CREATE_INSTANCES on the definition. */
  function CheckCreateProcessInstance(s: AuthSetup, definition: ProcessDefinitionEntity): (o: Outcome<()>)
    ensures !Enforced(s) ==> o == Outcome([], Ok(()))
    ensures Enforced(s) ==>
      var first := CurrentQuery(s, [Check(Create.Value(), ProcessInstance.ResourceType(), None, None, None)]);
      var second := CurrentQuery(s, [Check(CreateInstances.Value(), ProcessDefinition.ResourceType(),
                                           Some(definition.key), None, None)]);
      && (o.result.Ok? <==> s.store(first) && s.store(second))
      && (!s.store(first) ==> o.effects == [StoreQueried(first)])
      && (s.store(first) ==> o.effects == [StoreQueried(first), StoreQueried(second)])
      && (s.store(first) && !s.store(second) ==>
            o.result == Err(Unauthorized(MissingPermission(s.currentAuthentication.value.userId,
                                                           "CREATE_INSTANCES", "ProcessDefinition",
                                                           Some(definition.key)))))
  {
    var first := CheckAuthorizationOnType(s, Create, ProcessInstance);
    if first.result.Err? then first
    else
      var second := CheckAuthorization(s, CreateInstances, ProcessDefinition, Some(definition.key));
      Outcome(first.effects + second.effects, second.result)
  }

  /** The CREATE failure is the one reported when both grants are missing. */
  lemma CreateReportsCreateFirst(s: AuthSetup, definition: ProcessDefinitionEntity)
    requires Enforced(s)
    requires !s.store(CurrentQuery(s, [Check(Create.Value(), ProcessInstance.ResourceType(), None, None, None)]))
    ensures CheckCreateProcessInstance(s, definition).result ==
      Err(Unauthorized(MissingPermission(s.currentAuthentication.value.userId, "CREATE",
                                         "ProcessInstance", None)))
  {
  }

  /** The two checks of the read, update and delete compositions. */
  function ProcessInstanceChecks(instancePermission: Permission, definitionPermission: Permission,
                                 execution: Execution): seq<Check>
  {
    [ResourceCheck(instancePermission, ProcessInstance, Some(execution.processInstanceId)),
     ResourceCheck(definitionPermission, ProcessDefinition, Some(execution.processDefinitionKey))
       .(noAuthFound := Some(0))]
  }

  function CheckProcessInstancePermission(s: AuthSetup, instancePermission: Permission,
                                          definitionPermission: Permission,
                                          execution: Execution): Outcome<()>
  {
    CheckAuthorizations(s, ProcessInstanceChecks(instancePermission, definitionPermission, execution))
  }

  /** checkReadProcessInstance(execution). */
  function CheckReadProcessInstance(s: AuthSetup, execution: Execution): (o: Outcome<()>)
    ensures o == CheckAuthorizations(s,
      [Check(Read.Value(), ProcessInstance.ResourceType(), Some(execution.processInstanceId), None, None),
       Check(ReadInstances.Value(), ProcessDefinition.ResourceType(), Some(execution.processDefinitionKey),
             None, Some(0))])
  {
    CheckProcessInstancePermission(s, Read, ReadInstances, execution)
  }

  /** checkUpdateProcessInstance(execution). */
  function CheckUpdateProcessInstance(s: AuthSetup, execution: Execution): (o: Outcome<()>)
    ensures o == CheckAuthorizations(s,
      [Check(Update.Value(), ProcessInstance.ResourceType(), Some(execution.processInstanceId), None, None),
       Check(UpdateInstances.Value(), ProcessDefinition.ResourceType(), Some(execution.processDefinitionKey),
             None, Some(0))])
  {
    CheckProcessInstancePermission(s, Update, UpdateInstances, execution)
  }

  /** checkDeleteProcessInstance(execution). */
  function CheckDeleteProcessInstance(s: AuthSetup, execution: Execution): (o: Outcome<()>)
    ensures o == CheckAuthorizations(s,
      [Check(Delete.Value(), ProcessInstance.ResourceType(), Some(execution.processInstanceId), None, None),
       Check(DeleteInstances.Value(), ProcessDefinition.ResourceType(), Some(execution.processDefinitionKey),
             None, Some(0))])
  {
    CheckProcessInstancePermission(s, Delete, DeleteInstances, execution)
  }

  /** checkUpdateInstancesOnProcessDefinitionByKey: UPDATE_INSTANCES on the definition key. */
  function CheckUpdateInstancesOnProcessDefinitionByKey(s: AuthSetup, processDefinitionKey: string): (o: Outcome<()>)
    ensures !Enforced(s) ==> o == Outcome([], Ok(()))
    ensures Enforced(s) ==>
      var q := CurrentQuery(s, [Check(UpdateInstances.Value(), ProcessDefinition.ResourceType(),
                                      Some(processDefinitionKey), None, None)]);
      o.effects == [StoreQueried(q)] && (o.result.Ok? <==> s.store(q))
    ensures o.result.Err? ==>
      Enforced(s) &&
      o.result.error == Unauthorized(MissingPermission(s.currentAuthentication.value.userId,
                                                       "UPDATE_INSTANCES", "ProcessDefinition",
                                                       Some(processDefinitionKey)))
  {
    CheckAuthorization(s, UpdateInstances, ProcessDefinition, Some(processDefinitionKey))
  }

  /**
   * The overloads taking an id look the execution up first (with authentication as it
   * is); an id that finds nothing ends in a null dereference.
   */
  function CheckProcessInstanceById(s: AuthSetup, c: Collaborators, instancePermission: Permission,
                                    definitionPermission: Permission,
                                    processInstanceId: Option<string>): (o: Outcome<()>)
    ensures |o.effects| >= 1 && o.effects[0] == Looked(ExecutionById(processInstanceId), false)
    ensures c.executionById(processInstanceId).None? ==>
      o == Outcome([Looked(ExecutionById(processInstanceId), false)], Err(NullReference))
    ensures c.executionById(processInstanceId).Some? ==>
      var checked := CheckProcessInstancePermission(s, instancePermission, definitionPermission,
                                                    c.executionById(processInstanceId).value);
      o.effects[1..] == checked.effects && o.result == checked.result
  {
    var lookup := [Looked(ExecutionById(processInstanceId), false)];
    match c.executionById(processInstanceId)
    case None => Outcome(lookup, Err(NullReference))
    case Some(execution) =>
      var checked := CheckProcessInstancePermission(s, instancePermission, definitionPermission, execution);
      Outcome(lookup + checked.effects, checked.result)
  }

  /** checkReadProcessInstance(processInstanceId). */
  function CheckReadProcessInstanceById(s: AuthSetup, c: Collaborators,
                                        processInstanceId: Option<string>): (o: Outcome<()>)
    ensures |o.effects| >= 1 && o.effects[0] == Looked(ExecutionById(processInstanceId), false)
    ensures c.executionById(processInstanceId).None? ==>
      o == Outcome([Looked(ExecutionById(processInstanceId), false)], Err(NullReference))
    ensures c.executionById(processInstanceId).Some? ==>
      var e := c.executionById(processInstanceId).value;
      var checked := CheckAuthorizations(s,
        [Check(Read.Value(), ProcessInstance.ResourceType(), Some(e.processInstanceId), None, None),
         Check(ReadInstances.Value(), ProcessDefinition.ResourceType(), Some(e.processDefinitionKey), None, Some(0))]);
      o.effects[1..] == checked.effects && o.result == checked.result
  {
    CheckProcessInstanceById(s, c, Read, ReadInstances, processInstanceId)
  }

  /** checkUpdateProcessInstance(processInstanceId). */
  function CheckUpdateProcessInstanceById(s: AuthSetup, c: Collaborators,
                                          processInstanceId: Option<string>): (o: Outcome<()>)
    ensures |o.effects| >= 1 && o.effects[0] == Looked(ExecutionById(processInstanceId), false)
    ensures c.executionById(processInstanceId).None? ==>
      o == Outcome([Looked(ExecutionById(processInstanceId), false)], Err(NullReference))
    ensures c.executionById(processInstanceId).Some? ==>
      var e := c.executionById(processInstanceId).value;
      var checked := CheckAuthorizations(s,
        [Check(Update.Value(), ProcessInstance.ResourceType(), Some(e.processInstanceId), None, None),
         Check(UpdateInstances.Value(), ProcessDefinition.ResourceType(), Some(e.processDefinitionKey), None, Some(0))]);
      o.effects[1..] == checked.effects && o.result == checked.result
  {
    CheckProcessInstanceById(s, c, Update, UpdateInstances, processInstanceId)
  }

  /** checkUpdateInstancesOnProcessDefinitionById: look the latest definition up, check by its key. */
  function CheckUpdateInstancesOnProcessDefinitionById(s: AuthSetup, c: Collaborators,
                                                       processDefinitionId: string): (o: Outcome<()>)
    ensures |o.effects| >= 1 && o.effects[0] == Looked(LatestDefinitionById(processDefinitionId), false)
    ensures c.latestDefinitionById(processDefinitionId).None? ==>
      o == Outcome([Looked(LatestDefinitionById(processDefinitionId), false)], Err(NullReference))
    ensures c.latestDefinitionById(processDefinitionId).Some? ==>
      var checked := CheckUpdateInstancesOnProcessDefinitionByKey(
                       s, c.latestDefinitionById(processDefinitionId).value.key);
      o.effects[1..] == checked.effects && o.result == checked.result
  {
    var lookup := [Looked(LatestDefinitionById(processDefinitionId), false)];
    match c.latestDefinitionById(processDefinitionId)
    case None => Outcome(lookup, Err(NullReference))
    case Some(definition) =>
      var checked := CheckUpdateInstancesOnProcessDefinitionByKey(s, definition.key);
      Outcome(lookup + checked.effects, checked.result)
  }

  // ---------------------------------------------------------------- scenarios

  /**
   * A store that answers a query by OR-ing the checks it carries: some check of the
   * list is granted to the user or the groups. This is how the tests observe the
   * store; the store's own predicate is not modelled.
   */
  ghost predicate GrantsAny(store: StoreOracle, granted: (string, seq<string>, Check) -> bool) {
    forall q: AuthorizationCheck {:trigger store(q)} ::
      store(q) <==>
        exists i :: 0 <= i < |q.authCheckParameters| &&
                    granted(q.authUserId, q.authGroupIds, q.authCheckParameters[i])
  }

  /**
   * Read, update and delete of a process instance: either the instance-level grant or
   * the `*_INSTANCES` grant on its definition suffices; without both it fails.
   */
  lemma EitherGrantSuffices(s: AuthSetup, instancePermission: Permission,
                            definitionPermission: Permission, execution: Execution,
                            granted: (string, seq<string>, Check) -> bool)
    requires Enforced(s) && GrantsAny(s.store, granted)
    ensures var a := s.currentAuthentication.value;
            var checks := ProcessInstanceChecks(instancePermission, definitionPermission, execution);
            CheckProcessInstancePermission(s, instancePermission, definitionPermission, execution).result.Ok?
            <==> granted(a.userId, a.groupIds, checks[0]) || granted(a.userId, a.groupIds, checks[1])
  {
    var a := s.currentAuthentication.value;
    var checks := ProcessInstanceChecks(instancePermission, definitionPermission, execution);
    var q := CurrentQuery(s, checks);
    assert q.authCheckParameters == checks;
    assert s.store(q) <==>
      exists i :: 0 <= i < |checks| && granted(a.userId, a.groupIds, checks[i]);
    if granted(a.userId, a.groupIds, checks[1]) {
      assert 0 <= 1 < |checks|;
    }
  }

  /** Creating a process instance needs both grants: neither one alone suffices. */
  lemma CreateNeedsBothGrants(s: AuthSetup, definition: ProcessDefinitionEntity,
                              granted: (string, seq<string>, Check) -> bool)
    requires Enforced(s) && GrantsAny(s.store, granted)
    ensures var a := s.currentAuthentication.value;
            CheckCreateProcessInstance(s, definition).result.Ok? <==>
              && granted(a.userId, a.groupIds, ResourceCheck(Create, ProcessInstance, None))
              && granted(a.userId, a.groupIds,
                         ResourceCheck(CreateInstances, ProcessDefinition, Some(definition.key)))
  {
    var a := s.currentAuthentication.value;
    var c1 := ResourceCheck(Create, ProcessInstance, None);
    var c2 := ResourceCheck(CreateInstances, ProcessDefinition, Some(definition.key));
    var q1 := CurrentQuery(s, [c1]);
    var q2 := CurrentQuery(s, [c2]);
    assert q1.authCheckParameters[0] == c1;
    assert q2.authCheckParameters[0] == c2;
    assert s.store(q1) <==> granted(a.userId, a.groupIds, c1);
    assert s.store(q2) <==> granted(a.userId, a.groupIds, c2);
  }

  // ---------------------------------------------------------------- queries

  /** The authorization part of a query (AbstractQuery's authorization fields). */
  class AuthorizedQuery {
    var authCheckParameters: seq<Check>
    var authorizationCheckEnabled: bool
    var authUserId: Option<string>
    var authGroupIds: Option<seq<string>>

    constructor ()
      ensures authCheckParameters == [] && !authorizationCheckEnabled
      ensures authUserId == None && authGroupIds == None
    {
      authCheckParameters := [];
      authorizationCheckEnabled := false;
      authUserId := None;
      authGroupIds := None;
    }
  }

  /** configureQuery(query): empties the checks, then sets or clears the subject. */
  method ConfigureQuery(s: AuthSetup, query: AuthorizedQuery)
    modifies query
    ensures query.authCheckParameters == []
    ensures query.authorizationCheckEnabled == Enforced(s)
    ensures Enforced(s) ==>
      query.authUserId == Some(s.currentAuthentication.value.userId) &&
      query.authGroupIds == Some(s.currentAuthentication.value.groupIds)
    ensures !Enforced(s) ==> query.authUserId == None && query.authGroupIds == None
  {
    query.authCheckParameters := [];
    if Enforced(s) {
      query.authorizationCheckEnabled := true;
      var currentUserId := s.currentAuthentication.value.userId;
      var currentGroupIds := s.currentAuthentication.value.groupIds;
      query.authUserId := Some(currentUserId);
      query.authGroupIds := Some(currentGroupIds);
    } else {
      query.authorizationCheckEnabled := false;
      query.authUserId := None;
      query.authGroupIds := None;
    }
  }

  /** addAuthorizationCheckParameter: appends one check, and only behind the gate. */
  method AddAuthorizationCheckParameter(s: AuthSetup, query: AuthorizedQuery, resource: Resource,
                                        queryParam: string, permission: Permission)
    modifies query
    ensures query.authCheckParameters ==
      old(query.authCheckParameters) +
      (if Enforced(s) then [Check(permission.Value(), resource.ResourceType(), None, Some(queryParam), None)]
       else [])
    ensures query.authorizationCheckEnabled == old(query.authorizationCheckEnabled)
    ensures query.authUserId == old(query.authUserId) && query.authGroupIds == old(query.authGroupIds)
  {
    if Enforced(s) {
      var parameter := new PermissionCheck();
      parameter.SetAuthResourceType(resource.ResourceType());
      parameter.SetAuthResourceIdQueryParam(Some(queryParam));
      parameter.SetAuthPerms(permission.Value());
      query.authCheckParameters := query.authCheckParameters + [parameter.Value()];
    }
  }

  /** configureQuery(query, resource, queryParam, permission): exactly one check behind the gate, none otherwise. */
  method ConfigureQueryFor(s: AuthSetup, query: AuthorizedQuery, resource: Resource,
                           queryParam: string, permission: Permission)
    modifies query
    ensures query.authCheckParameters ==
      (if Enforced(s) then [Check(permission.Value(), resource.ResourceType(), None, Some(queryParam), None)]
       else [])
    ensures query.authorizationCheckEnabled == Enforced(s)
    ensures Enforced(s) ==>
      query.authUserId == Some(s.currentAuthentication.value.userId) &&
      query.authGroupIds == Some(s.currentAuthentication.value.groupIds)
    ensures !Enforced(s) ==> query.authUserId == None && query.authGroupIds == None
  {
    ConfigureQuery(s, query);
    AddAuthorizationCheckParameter(s, query, resource, queryParam, permission);
  }

  /** configureQuery(query, resource, queryParam): the permission defaults to READ. */
  method ConfigureQueryWithParam(s: AuthSetup, query: AuthorizedQuery, resource: Resource,
                                 queryParam: string)
    modifies query
    ensures query.authCheckParameters ==
      (if Enforced(s) then [Check(Read.Value(), resource.ResourceType(), None, Some(queryParam), None)]
       else [])
    ensures query.authorizationCheckEnabled == Enforced(s)
    ensures Enforced(s) ==>
      query.authUserId == Some(s.currentAuthentication.value.userId) &&
      query.authGroupIds == Some(s.currentAuthentication.value.groupIds)
    ensures !Enforced(s) ==> query.authUserId == None && query.authGroupIds == None
  {
    ConfigureQueryFor(s, query, resource, queryParam, Read);
  }

  /** configureQuery(query, resource): the query parameter defaults to "RES.ID_". */
  method ConfigureQueryForResource(s: AuthSetup, query: AuthorizedQuery, resource: Resource)
    modifies query
    ensures query.authCheckParameters ==
      (if Enforced(s) then [Check(Read.Value(), resource.ResourceType(), None, Some("RES.ID_"), None)]
       else [])
    ensures query.authorizationCheckEnabled == Enforced(s)
    ensures Enforced(s) ==>
      query.authUserId == Some(s.currentAuthentication.value.userId) &&
      query.authGroupIds == Some(s.currentAuthentication.value.groupIds)
    ensures !Enforced(s) ==> query.authUserId == None && query.authGroupIds == None
  {
    ConfigureQueryWithParam(s, query, resource, "RES.ID_");
  }

  // ---------------------------------------------------------------- authorization store writes

  /** insert: CREATE on authorizations, then the insert. */
  method InsertAuthorization(cc: CommandContext, authorizationId: Option<string>) returns (r: Result<()>)
    modifies cc
    ensures var checked := CheckAuthorizationOnType(cc.authorization, Create, Authorization);
            r == checked.result &&
            cc.trace == old(cc.trace) + checked.effects +
                        (if r.Ok? then [AuthorizationInserted(authorizationId)] else [])
  {
    var checked := CheckAuthorizationOnType(cc.authorization, Create, Authorization);
    cc.trace := cc.trace + checked.effects;
    r := checked.result;
    if r.Ok? {
      cc.trace := cc.trace + [AuthorizationInserted(authorizationId)];
    }
  }

  /** update: UPDATE on the authorization itself, then the merge. */
  method UpdateAuthorization(cc: CommandContext, authorizationId: Option<string>) returns (r: Result<()>)
    modifies cc
    ensures var checked := CheckAuthorization(cc.authorization, Update, Authorization, authorizationId);
            r == checked.result &&
            cc.trace == old(cc.trace) + checked.effects +
                        (if r.Ok? then [AuthorizationMerged(authorizationId)] else [])
  {
    var checked := CheckAuthorization(cc.authorization, Update, Authorization, authorizationId);
    cc.trace := cc.trace + checked.effects;
    r := checked.result;
    if r.Ok? {
      cc.trace := cc.trace + [AuthorizationMerged(authorizationId)];
    }
  }

  /**
   * deleteAuthorizationsByResourceId: a null id is rejected whether or not authorization
   * is enabled; the delete is issued only when it is enabled.
   */
  method DeleteAuthorizationsByResourceId(cc: CommandContext, resource: Resource,
                                          resourceId: Option<string>) returns (r: Result<()>)
    modifies cc
    ensures resourceId.None? ==> r == Err(IllegalArgument) && cc.trace == old(cc.trace)
    ensures resourceId.Some? ==>
      r == Ok(()) &&
      cc.trace == old(cc.trace) +
                  (if cc.authorization.authorizationEnabled
                   then [AuthorizationsDeletedFor(resource.ResourceType(), resourceId.value)] else [])
  {
    if resourceId.None? {
      return Err(IllegalArgument);
    }
    if cc.authorization.authorizationEnabled {
      cc.trace := cc.trace + [AuthorizationsDeletedFor(resource.ResourceType(), resourceId.value)];
    }
    r := Ok(());
  }

  /** delete: DELETE on the authorization, then its own grants, then the entity. */
  method DeleteAuthorization(cc: CommandContext, authorizationId: Option<string>) returns (r: Result<()>)
    modifies cc
    ensures var checked := CheckAuthorization(cc.authorization, Delete, Authorization, authorizationId);
            if checked.result.Err? then
              r == checked.result && cc.trace == old(cc.trace) + checked.effects
            else if authorizationId.None? then
              r == Err(IllegalArgument) && cc.trace == old(cc.trace) + checked.effects
            else
              r == Ok(()) &&
              cc.trace == old(cc.trace) + checked.effects +
                          (if cc.authorization.authorizationEnabled
                           then [AuthorizationsDeletedFor(Authorization.ResourceType(), authorizationId.value)]
                           else []) +
                          [AuthorizationDeleted(authorizationId)]
  {
    var checked := CheckAuthorization(cc.authorization, Delete, Authorization, authorizationId);
    cc.trace := cc.trace + checked.effects;
    if checked.result.Err? {
      return checked.result;
    }
    r := DeleteAuthorizationsByResourceId(cc, Authorization, authorizationId);
    if r.Err? {
      return;
    }
    cc.trace := cc.trace + [AuthorizationDeleted(authorizationId)];
  }
}
