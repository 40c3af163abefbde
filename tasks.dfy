/**
 * The task commands: set a task's priority, delegate a task. Both look the task up
 * without authentication, run the update-task check on it, and only then change it and
 * record one historic task detail.
 */
module TaskCommands {
  import opened Common
  import opened Engine

  /** The change a task command makes once the task is found and the check passes. */
  datatype TaskChange = PriorityTo(priority: int) | DelegatedTo(userId: Option<string>)

  /** The operation type of the historic detail (the UserOperationLogEntry constants). */
  function OperationOf(change: TaskChange): string {
    match change
    case PriorityTo(_) => "SetPriority"
    case DelegatedTo(_) => "Delegate"
  }

  function ChangeEffect(taskId: string, change: TaskChange): Effect {
    match change
    case PriorityTo(priority) => TaskPrioritySet(taskId, priority)
    case DelegatedTo(userId) => TaskDelegated(taskId, userId)
  }

  /**
   * What a task command records and whether it fails, given the ids of the tasks that
   * exist: null id, lookup, missing task, update check, change, history detail.
   */
  function TaskUpdate(c: Collaborators, existing: set<string>, taskId: Option<string>,
                      change: TaskChange): (o: Outcome<()>)
    ensures taskId.None? ==> o == Outcome([], Err(NullValue("taskId", None)))
    ensures taskId.Some? ==> |o.effects| >= 1 && o.effects[0] == Looked(TaskById(taskId.value), true)
    ensures taskId.Some? && taskId.value !in existing ==>
      o == Outcome([Looked(TaskById(taskId.value), true)], Err(NullValue("task", taskId)))
    ensures taskId.Some? && taskId.value in existing && c.checkUpdateTask(taskId.value).Some? ==>
      o == Outcome([Looked(TaskById(taskId.value), true), TaskUpdateChecked(taskId.value)],
                   Err(Unauthorized(c.checkUpdateTask(taskId.value).value)))
  {
    if taskId.None? then Outcome([], Err(NullValue("taskId", None)))
    else
      var id := taskId.value;
      var looked := [Looked(TaskById(id), true)];
      if id !in existing then Outcome(looked, Err(NullValue("task", taskId)))
      else
        var checked := looked + [TaskUpdateChecked(id)];
        match c.checkUpdateTask(id)
        case Some(e) => Outcome(checked, Err(Unauthorized(e)))
        case None =>
          Outcome(checked + [ChangeEffect(id, change), HistoricTaskDetailsCreated(id, OperationOf(change))],
                  Ok(()))
  }

  predicate IsTaskChange(e: Effect) { e.TaskPrioritySet? || e.TaskDelegated? }
  predicate IsHistoryDetail(e: Effect) { e.HistoricTaskDetailsCreated? }

  /**
   * A task command succeeds exactly when the id is given, the task exists and the
   * update check passes. Then the lookup (without authentication) and the check come
   * first, the change is made once, and one history detail of the command's operation
   * follows it; otherwise nothing is changed and no detail is recorded.
   */
  lemma {:induction false} TaskChangedOnceAfterCheck(c: Collaborators, existing: set<string>,
                                                     taskId: Option<string>, change: TaskChange)
    ensures var o := TaskUpdate(c, existing, taskId, change);
      o.result.Ok? <==> taskId.Some? && taskId.value in existing && c.checkUpdateTask(taskId.value).None?
    ensures var o := TaskUpdate(c, existing, taskId, change);
      Count(o.effects, IsTaskChange) == (if o.result.Ok? then 1 else 0) &&
      Count(o.effects, IsHistoryDetail) == (if o.result.Ok? then 1 else 0)
    ensures var o := TaskUpdate(c, existing, taskId, change);
      o.result.Ok? ==>
        o.effects == [Looked(TaskById(taskId.value), true), TaskUpdateChecked(taskId.value),
                      ChangeEffect(taskId.value, change),
                      HistoricTaskDetailsCreated(taskId.value, OperationOf(change))]
    ensures taskId.None? ==> TaskUpdate(c, existing, taskId, change).effects == []
  {
    var o := TaskUpdate(c, existing, taskId, change);
    if o.result.Ok? {
      var id := taskId.value;
      var e := o.effects;
      assert e == [e[0], e[1]] + [e[2]] + [e[3]];
      CountNone([e[0], e[1]], IsTaskChange);
      CountNone([e[0], e[1]], IsHistoryDetail);
      CountNone([e[3]], IsTaskChange);
      CountNone([e[2]], IsHistoryDetail);
      assert [e[2]][1..] == [] && [e[3]][1..] == [];
      CountAppend([e[0], e[1]], [e[2]], IsTaskChange);
      CountAppend([e[0], e[1]] + [e[2]], [e[3]], IsTaskChange);
      CountAppend([e[0], e[1]], [e[2]], IsHistoryDetail);
      CountAppend([e[0], e[1]] + [e[2]], [e[3]], IsHistoryDetail);
    } else {
      CountNone(o.effects, IsTaskChange);
      CountNone(o.effects, IsHistoryDetail);
    }
  }

  /** The task an id finds, if any. */
  function Found(cc: CommandContext, taskId: Option<string>): set<TaskEntity> {
    if taskId.Some? && taskId.value in cc.tasks then {cc.tasks[taskId.value]} else {}
  }

  /** SetTaskPriorityCmd. */
  class SetTaskPriorityCmd {
    const priority: int
    const taskId: Option<string>

    constructor (taskId: Option<string>, priority: int)
      ensures this.taskId == taskId && this.priority == priority
    {
      this.taskId := taskId;
      this.priority := priority;
    }

    /**
     * execute: the found task's priority is the given one on success and unchanged on
     * failure; no other field of it changes.
     */
    method Execute(cc: CommandContext) returns (r: Result<()>)
      modifies cc, Found(cc, taskId)
      ensures var o := TaskUpdate(cc.collaborators, cc.tasks.Keys, taskId, PriorityTo(priority));
              cc.trace == old(cc.trace) + o.effects && r == o.result
      ensures forall task :: task in Found(cc, taskId) ==>
                task.priority == (if r.Ok? then priority else old(task.priority)) &&
                task.name == old(task.name) && task.assignee == old(task.assignee) &&
                task.owner == old(task.owner)
    {
      if taskId.None? {
        return Err(NullValue("taskId", None));
      }
      cc.trace := cc.trace + [Looked(TaskById(taskId.value), true)];
      if taskId.value !in cc.tasks {
        return Err(NullValue("task", taskId));
      }
      var task := cc.tasks[taskId.value];
      cc.trace := cc.trace + [TaskUpdateChecked(taskId.value)];
      var rejection := cc.collaborators.checkUpdateTask(taskId.value);
      if rejection.Some? {
        return Err(Unauthorized(rejection.value));
      }
      task.SetPriority(priority);
      cc.trace := cc.trace + [TaskPrioritySet(taskId.value, priority)];
      cc.trace := cc.trace + [HistoricTaskDetailsCreated(taskId.value, OperationOf(PriorityTo(priority)))];
      r := Ok(());
    }
  }

  /** DelegateTaskCmd. */
  class DelegateTaskCmd {
    const taskId: Option<string>
    const userId: Option<string>

    constructor (taskId: Option<string>, userId: Option<string>)
      ensures this.taskId == taskId && this.userId == userId
    {
      this.taskId := taskId;
      this.userId := userId;
    }

    /** execute: delegation is recorded as the call into the task; its fields are not modelled. */
    method Execute(cc: CommandContext) returns (r: Result<()>)
      modifies cc
      ensures var o := TaskUpdate(cc.collaborators, cc.tasks.Keys, taskId, DelegatedTo(userId));
              cc.trace == old(cc.trace) + o.effects && r == o.result
    {
      if taskId.None? {
        return Err(NullValue("taskId", None));
      }
      cc.trace := cc.trace + [Looked(TaskById(taskId.value), true)];
      if taskId.value !in cc.tasks {
        return Err(NullValue("task", taskId));
      }
      cc.trace := cc.trace + [TaskUpdateChecked(taskId.value)];
      var rejection := cc.collaborators.checkUpdateTask(taskId.value);
      if rejection.Some? {
        return Err(Unauthorized(rejection.value));
      }
      cc.trace := cc.trace + [TaskDelegated(taskId.value, userId)];
      cc.trace := cc.trace + [HistoricTaskDetailsCreated(taskId.value, OperationOf(DelegatedTo(userId)))];
      r := Ok(());
    }
  }
}
