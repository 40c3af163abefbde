/**
 * The permission-check record of the persistence layer (PermissionCheck.java) and the
 * authorization query it is sent in (AuthorizationCheck: a user, the user's groups and a
 * list of permission checks).
 */
module Permissions {
  import opened Common

  /**
   * The permissions the modelled core asks for. Permissions.java is not part of this
   * model: the names are those the engine prints, the numeric codes are placeholders
   * (distinct bits); no property below depends on the particular numbers.
   */
  datatype Permission =
    | Read | Update | Create | Delete
    | ReadInstances | UpdateInstances | CreateInstances | DeleteInstances
  {
    function Name(): string {
      match this
      case Read => "READ"
      case Update => "UPDATE"
      case Create => "CREATE"
      case Delete => "DELETE"
      case ReadInstances => "READ_INSTANCES"
      case UpdateInstances => "UPDATE_INSTANCES"
      case CreateInstances => "CREATE_INSTANCES"
      case DeleteInstances => "DELETE_INSTANCES"
    }

    function Value(): int {
      match this
      case Read => 2
      case Update => 4
      case Create => 8
      case Delete => 16
      case ReadInstances => 32
      case UpdateInstances => 64
      case CreateInstances => 128
      case DeleteInstances => 256
    }
  }

  /**
   * The resource kinds the modelled core protects. Resources.java is not part of this
   * model: the names are those the engine prints, the codes are placeholders.
   */
  datatype Resource = Authorization | ProcessDefinition | ProcessInstance | Task {
    function ResourceName(): string {
      match this
      case Authorization => "Authorization"
      case ProcessDefinition => "ProcessDefinition"
      case ProcessInstance => "ProcessInstance"
      case Task => "Task"
    }

    function ResourceType(): int {
      match this
      case Authorization => 4
      case ProcessDefinition => 6
      case ProcessInstance => 8
      case Task => 7
    }
  }

  /** The value of a PermissionCheck: its five fields. */
  datatype Check = Check(
    authPerms: int,
    authResourceType: int,
    authResourceId: Option<string>,
    authResourceIdQueryParam: Option<string>,
    noAuthFound: Option<int>)

  /** The field values of a freshly constructed PermissionCheck. */
  const DefaultCheck := Check(0, 0, None, None, None)

  /** One query to the authorization store: a user, the user's groups, the checks. */
  datatype AuthorizationCheck = AuthorizationCheck(
    authUserId: string,
    authGroupIds: seq<string>,
    authCheckParameters: seq<Check>)

  /** The mutable record: five fields, each with its own setter. */
  class PermissionCheck {
    var authPerms: int
    var authResourceType: int
    var authResourceId: Option<string>
    var authResourceIdQueryParam: Option<string>
    var noAuthFound: Option<int>

    /** The five fields as one value. */
    function Value(): Check
      reads this
    {
      Check(authPerms, authResourceType, authResourceId, authResourceIdQueryParam, noAuthFound)
    }

    constructor ()
      ensures Value() == DefaultCheck
    {
      authPerms := 0;
      authResourceType := 0;
      authResourceId := None;
      authResourceIdQueryParam := None;
      noAuthFound := None;
    }

    method SetAuthPerms(v: int)
      modifies this
      ensures Value() == old(Value()).(authPerms := v)
    {
      authPerms := v;
    }

    method SetAuthResourceType(v: int)
      modifies this
      ensures Value() == old(Value()).(authResourceType := v)
    {
      authResourceType := v;
    }

    method SetAuthResourceId(v: Option<string>)
      modifies this
      ensures Value() == old(Value()).(authResourceId := v)
    {
      authResourceId := v;
    }

    method SetAuthResourceIdQueryParam(v: Option<string>)
      modifies this
      ensures Value() == old(Value()).(authResourceIdQueryParam := v)
    {
      authResourceIdQueryParam := v;
    }

    method SetNoAuthFound(v: Option<int>)
      modifies this
      ensures Value() == old(Value()).(noAuthFound := v)
    {
      noAuthFound := v;
    }
  }

  /**
   * A client of the record: a fresh check starts at the defaults, every getter then
   * returns what its setter was given last, and setting a field twice to the same value
   * leaves the record as setting it once does.
   */
  method SetTwiceEqualsSetOnce(perms: int, resourceType: int, resourceId: Option<string>,
                               queryParam: Option<string>, noAuthFound: Option<int>)
    returns (fresh0: Check, once: Check, twice: Check)
    ensures fresh0 == DefaultCheck
    ensures once == Check(perms, resourceType, resourceId, queryParam, noAuthFound)
    ensures twice == once
  {
    var a := new PermissionCheck();
    fresh0 := a.Value();
    a.SetAuthPerms(perms);
    a.SetAuthResourceType(resourceType);
    a.SetAuthResourceId(resourceId);
    a.SetAuthResourceIdQueryParam(queryParam);
    a.SetNoAuthFound(noAuthFound);
    once := a.Value();

    var b := new PermissionCheck();
    b.SetAuthPerms(perms);
    b.SetAuthPerms(perms);
    b.SetAuthResourceType(resourceType);
    b.SetAuthResourceType(resourceType);
    b.SetAuthResourceId(resourceId);
    b.SetAuthResourceId(resourceId);
    b.SetAuthResourceIdQueryParam(queryParam);
    b.SetAuthResourceIdQueryParam(queryParam);
    b.SetNoAuthFound(noAuthFound);
    b.SetNoAuthFound(noAuthFound);
    twice := b.Value();
  }
}
