/**
 * The suspension-state template: check the parameters, then either update the state
 * now (and cascade to the next command with its own logging switched off) or schedule
 * a timer, then log the user operation unless logging was disabled. The job variant
 * supplies the parameter check, the priority-ordered update and the job log entry.
 *
 * `Run` is the specification of one execution; `SetStateCmd.Execute` is proved to
 * record exactly the effects `Run` lists.
 */
module SetStateCommands {
  import opened Common
  import opened Engine

  // ---------------------------------------------------------------- the job variant

  /** The five optional selectors of a job-state command. */
  datatype JobSelectors = JobSelectors(
    jobId: Option<string>,
    jobDefinitionId: Option<string>,
    processInstanceId: Option<string>,
    processDefinitionId: Option<string>,
    processDefinitionKey: Option<string>)

  /** The selector of each kind. */
  function Selected(s: JobSelectors, kind: JobSelector): Option<string> {
    match kind
    case ByJobId => s.jobId
    case ByJobDefinitionId => s.jobDefinitionId
    case ByProcessInstanceId => s.processInstanceId
    case ByProcessDefinitionId => s.processDefinitionId
    case ByProcessDefinitionKey => s.processDefinitionKey
  }

  /** The order in which a job-state command prefers its selectors (the most specific first). */
  function Rank(kind: JobSelector): nat {
    match kind
    case ByJobId => 0
    case ByJobDefinitionId => 1
    case ByProcessInstanceId => 2
    case ByProcessDefinitionId => 3
    case ByProcessDefinitionKey => 4
  }

  predicate NoSelector(s: JobSelectors) {
    forall kind: JobSelector :: Selected(s, kind).None?
  }

  /**
   * The one JobManager update a job-state command issues: the first selector present
   * in priority order, or none when every selector is absent.
   */
  function FirstSelector(s: JobSelectors): (r: Option<(JobSelector, string)>)
    ensures r.None? <==> NoSelector(s)
    ensures r.Some? ==> Selected(s, r.value.0) == Some(r.value.1)
    ensures r.Some? ==>
      forall kind: JobSelector :: Rank(kind) < Rank(r.value.0) ==> Selected(s, kind).None?
  {
    if s.jobId.Some? then
      assert Selected(s, ByJobId).Some?;
      Some((ByJobId, s.jobId.value))
    else if s.jobDefinitionId.Some? then
      assert Selected(s, ByJobDefinitionId).Some?;
      Some((ByJobDefinitionId, s.jobDefinitionId.value))
    else if s.processInstanceId.Some? then
      assert Selected(s, ByProcessInstanceId).Some?;
      Some((ByProcessInstanceId, s.processInstanceId.value))
    else if s.processDefinitionId.Some? then
      assert Selected(s, ByProcessDefinitionId).Some?;
      Some((ByProcessDefinitionId, s.processDefinitionId.value))
    else if s.processDefinitionKey.Some? then
      assert Selected(s, ByProcessDefinitionKey).Some?;
      Some((ByProcessDefinitionKey, s.processDefinitionKey.value))
    else None
  }

  /** The property name of the job log entry's change. */
  const SuspensionStateProperty := "suspensionState"

  // ---------------------------------------------------------------- variants

  /**
   * What a concrete command supplies to the template. `Jobs` is the job variant;
   * `Other` stands for a variant whose code is not part of this model, given by its
   * parameter verdict, its new state, its log operation and its timer hooks.
   */
  datatype Variant =
    | Jobs(selectors: JobSelectors, newState: SuspensionState, operation: string)
    | Other(kind: string, parametersValid: bool, newState: SuspensionState, operation: string,
            handlerType: Option<string>, handlerConfiguration: Option<string>)

  /** checkParameters: the job variant rejects a command without any selector. */
  function CheckParameters(v: Variant): (r: Option<EngineError>)
    ensures v.Jobs? ==> (r.Some? <==> NoSelector(v.selectors))
    ensures v.Jobs? && r.Some? ==> r.value == NoJobSelector
    ensures v.Other? ==> (r.None? <==> v.parametersValid)
  {
    match v
    case Jobs(selectors, _, _) => if FirstSelector(selectors).None? then Some(NoJobSelector) else None
    case Other(kind, valid, _, _, _, _) => if valid then None else Some(InvalidParameters(kind))
  }

  /** updateSuspensionState: what the update of `v` records. */
  function UpdateEffects(v: Variant, state: SuspensionState): (r: seq<Effect>)
    ensures v.Jobs? ==>
      (r == [] <==> NoSelector(v.selectors)) &&
      (r != [] ==> r == [SuspensionStateUpdated(JobsBy(FirstSelector(v.selectors).value.0,
                                                       FirstSelector(v.selectors).value.1), state)])
    ensures v.Other? ==> r == [SuspensionStateUpdated(ResourcesOf(v.kind), state)]
  {
    match v
    case Jobs(selectors, _, _) =>
      (match FirstSelector(selectors)
       case None => []
       case Some(first) => [SuspensionStateUpdated(JobsBy(first.0, first.1), state)])
    case Other(kind, _, _, _, _, _) => [SuspensionStateUpdated(ResourcesOf(kind), state)]
  }

  /** getDelayedExecutionJobHandlerType: null unless a variant overrides it. */
  function DelayedExecutionJobHandlerType(v: Variant): (r: Option<string>)
    ensures v.Jobs? ==> r.None?
    ensures v.Other? ==> r == v.handlerType
  {
    if v.Other? then v.handlerType else None
  }

  /** getJobHandlerConfiguration: null unless a variant overrides it. */
  function JobHandlerConfiguration(v: Variant): (r: Option<string>)
    ensures v.Jobs? ==> r.None?
    ensures v.Other? ==> r == v.handlerConfiguration
  {
    if v.Other? then v.handlerConfiguration else None
  }

  /** logUserOperation: the job entry carries all five selectors and the new state's name. */
  function LogEntryFor(v: Variant): (r: LogEntry)
    ensures v.Jobs? ==>
      && r.JobOperation? && r.operation == v.operation
      && r.jobId == v.selectors.jobId && r.jobDefinitionId == v.selectors.jobDefinitionId
      && r.processInstanceId == v.selectors.processInstanceId
      && r.processDefinitionId == v.selectors.processDefinitionId
      && r.processDefinitionKey == v.selectors.processDefinitionKey
      && r.change == PropertyChange(SuspensionStateProperty, None, Some(v.newState.Name()))
    ensures v.Other? ==> r == ResourceOperation(v.kind, v.operation)
  {
    match v
    case Jobs(s, newState, operation) =>
      JobOperation(operation, s.jobId, s.jobDefinitionId, s.processInstanceId,
                   s.processDefinitionId, s.processDefinitionKey,
                   PropertyChange(SuspensionStateProperty, None, Some(newState.Name())))
    case Other(kind, _, _, operation, _, _) => ResourceOperation(kind, operation)
  }

  // ---------------------------------------------------------------- the template

  /** A command's configuration: the template's fields, its variant and its next command. */
  datatype StateCmd = StateCmd(includeSubResources: bool, executionDate: Option<Date>,
                               variant: Variant, next: Option<StateCmd>)

  /** The timer scheduleSuspensionStateUpdate schedules. */
  function ScheduledTimer(c: StateCmd): Timer
    requires c.executionDate.Some?
  {
    Timer(c.executionDate.value, DelayedExecutionJobHandlerType(c.variant),
          JobHandlerConfiguration(c.variant))
  }

  /**
   * One execution of the template, with the logging switch as given: the effects in
   * order and the failure, if any. A failure stops the command where it is raised.
   */
  function Run(c: StateCmd, logDisabled: bool): Outcome<()>
    decreases c
  {
    match CheckParameters(c.variant)
    case Some(e) => Outcome([], Err(e))
    case None =>
      var step :=
        if c.executionDate.None? then
          var updated := UpdateEffects(c.variant, c.variant.newState);
          if c.includeSubResources && c.next.Some? then
            var nested := Run(c.next.value, true);
            Outcome(updated + nested.effects, nested.result)
          else
            Outcome(updated, Ok(()))
        else
          Outcome([TimerScheduled(ScheduledTimer(c))], Ok(()));
      if step.result.Err? then step
      else Outcome(step.effects + (if logDisabled then [] else [OperationLogged(LogEntryFor(c.variant))]),
                   Ok(()))
  }

  predicate IsLog(e: Effect) { e.OperationLogged? }
  predicate IsStoreQuery(e: Effect) { e.StoreQueried? }
  predicate IsTimer(e: Effect) { e.TimerScheduled? }

  /** The template raises only parameter-check failures, its own or a cascaded command's. */
  lemma {:induction false} RunFailsOnlyOnParameters(c: StateCmd, logDisabled: bool)
    ensures var r := Run(c, logDisabled);
      r.result.Err? ==> r.result.error.NoJobSelector? || r.result.error.InvalidParameters?
    decreases c
  {
    if CheckParameters(c.variant).None? && c.executionDate.None? && c.includeSubResources && c.next.Some? {
      RunFailsOnlyOnParameters(c.next.value, true);
    }
  }

  /** On the immediate path a command's own suspension update comes before anything else it records. */
  lemma RunUpdatesFirst(c: StateCmd, logDisabled: bool)
    requires CheckParameters(c.variant).None? && c.executionDate.None?
    ensures var updated := UpdateEffects(c.variant, c.variant.newState);
            var r := Run(c, logDisabled);
            |updated| <= |r.effects| && r.effects[..|updated|] == updated
  {
  }

  /** The commands one execution runs on the immediate path: itself, then those it cascades to. */
  function Cascade(c: StateCmd): (r: seq<StateCmd>)
    ensures |r| >= 1 && r[0] == c
    decreases c
  {
    [c] + (if c.includeSubResources && c.next.Some? then Cascade(c.next.value) else [])
  }

  /** The suspension update of each command, in the order of the commands. */
  function AllUpdates(cs: seq<StateCmd>): seq<Effect>
  {
    if cs == [] then [] else UpdateEffects(cs[0].variant, cs[0].variant.newState) + AllUpdates(cs[1..])
  }

  /**
   * When every command of the cascade runs immediately and passes its parameter check,
   * each one makes its own update exactly once, in cascade order, the cascaded commands
   * log nothing, and the command itself logs once at the end unless its logging is off.
   */
  lemma {:induction false} ImmediateCascadeUpdatesEach(c: StateCmd, logDisabled: bool)
    requires forall d :: d in Cascade(c) ==> d.executionDate.None? && CheckParameters(d.variant).None?
    ensures Run(c, logDisabled) ==
      Outcome(AllUpdates(Cascade(c)) + (if logDisabled then [] else [OperationLogged(LogEntryFor(c.variant))]),
              Ok(()))
    decreases c
  {
    var updated := UpdateEffects(c.variant, c.variant.newState);
    assert c in Cascade(c);
    if c.includeSubResources && c.next.Some? {
      var n := c.next.value;
      assert Cascade(c)[1..] == Cascade(n);
      forall d | d in Cascade(n)
        ensures d.executionDate.None? && CheckParameters(d.variant).None?
      {
        assert d in Cascade(c);
      }
      ImmediateCascadeUpdatesEach(n, true);
      assert AllUpdates(Cascade(c)) == updated + AllUpdates(Cascade(n));
    } else {
      assert Cascade(c)[1..] == [];
      assert AllUpdates(Cascade(c)) == updated + AllUpdates([]);
    }
  }

  /** A command whose logging is disabled logs nothing, nor does any command it cascades to. */
  lemma {:induction false} DisabledRunNeverLogs(c: StateCmd)
    ensures Count(Run(c, true).effects, IsLog) == 0
    decreases c
  {
    if CheckParameters(c.variant).None? && c.executionDate.None? {
      var updated := UpdateEffects(c.variant, c.variant.newState);
      CountNone(updated, IsLog);
      if c.includeSubResources && c.next.Some? {
        var nested := Run(c.next.value, true);
        assert Run(c, true).effects == updated + nested.effects;
        DisabledRunNeverLogs(c.next.value);
        CountAppend(updated, nested.effects, IsLog);
      } else {
        assert Run(c, true).effects == updated;
      }
    }
  }

  /**
   * A successful top-level execution logs exactly one user operation, its own, as its
   * last effect: the cascaded commands never log.
   */
  lemma LoggedExactlyOnce(c: StateCmd)
    requires Run(c, false).result.Ok?
    ensures Count(Run(c, false).effects, IsLog) == 1
    ensures Run(c, false).effects[|Run(c, false).effects| - 1] == OperationLogged(LogEntryFor(c.variant))
  {
    var log := [OperationLogged(LogEntryFor(c.variant))];
    var o := Run(c, false);
    var step :=
      if c.executionDate.None? then
        var updated := UpdateEffects(c.variant, c.variant.newState);
        if c.includeSubResources && c.next.Some? then
          Outcome(updated + Run(c.next.value, true).effects, Run(c.next.value, true).result)
        else Outcome(updated, Ok(()))
      else Outcome([TimerScheduled(ScheduledTimer(c))], Ok(()));
    assert o.effects == step.effects + log;
    if c.executionDate.None? {
      var updated := UpdateEffects(c.variant, c.variant.newState);
      CountNone(updated, IsLog);
      if c.includeSubResources && c.next.Some? {
        DisabledRunNeverLogs(c.next.value);
        CountAppend(updated, Run(c.next.value, true).effects, IsLog);
      }
    } else {
      CountNone(step.effects, IsLog);
    }
    CountAppend(step.effects, log, IsLog);
  }

  /**
   * The template itself never consults the authorization store, at any depth. This holds
   * by construction: the job variant's `checkAuthorization` is empty, so no step of `Run`
   * records a store query; the lemma states that fact, it does not prove anything about an
   * authorization step.
   */
  lemma {:induction false} RunNeverQueriesStore(c: StateCmd, logDisabled: bool)
    ensures Count(Run(c, logDisabled).effects, IsStoreQuery) == 0
    decreases c
  {
    var o := Run(c, logDisabled);
    if CheckParameters(c.variant).None? {
      if c.executionDate.None? && c.includeSubResources && c.next.Some? {
        var updated := UpdateEffects(c.variant, c.variant.newState);
        var nested := Run(c.next.value, true);
        RunNeverQueriesStore(c.next.value, true);
        CountNone(updated, IsStoreQuery);
        CountAppend(updated, nested.effects, IsStoreQuery);
        if nested.result.Ok? {
          var tail := if logDisabled then [] else [OperationLogged(LogEntryFor(c.variant))];
          CountNone(tail, IsStoreQuery);
          CountAppend(updated + nested.effects, tail, IsStoreQuery);
        }
      } else {
        CountNone(o.effects, IsStoreQuery);
      }
    }
  }

  /**
   * With an execution date the command only schedules one timer carrying the date and
   * the handler hooks, then logs: no state is updated and nothing is cascaded.
   */
  lemma ScheduledRunOnlySchedules(c: StateCmd, logDisabled: bool)
    requires c.executionDate.Some? && CheckParameters(c.variant).None?
    ensures Run(c, logDisabled).result.Ok?
    ensures Run(c, logDisabled).effects ==
      [TimerScheduled(Timer(c.executionDate.value, DelayedExecutionJobHandlerType(c.variant),
                            JobHandlerConfiguration(c.variant)))] +
      (if logDisabled then [] else [OperationLogged(LogEntryFor(c.variant))])
  {
  }

  /** Without an execution date no timer is scheduled by this command or any it cascades to that has none either. */
  lemma {:induction false} ImmediateChainSchedulesNothing(c: StateCmd, logDisabled: bool)
    requires forall d :: d in Chain(c) ==> d.executionDate.None?
    ensures Count(Run(c, logDisabled).effects, IsTimer) == 0
    decreases c
  {
    var o := Run(c, logDisabled);
    if CheckParameters(c.variant).None? {
      var updated := UpdateEffects(c.variant, c.variant.newState);
      CountNone(updated, IsTimer);
      var tail := if logDisabled then [] else [OperationLogged(LogEntryFor(c.variant))];
      CountNone(tail, IsTimer);
      if c.includeSubResources && c.next.Some? {
        var nested := Run(c.next.value, true);
        ImmediateChainSchedulesNothing(c.next.value, true);
        CountAppend(updated, nested.effects, IsTimer);
        if nested.result.Ok? {
          CountAppend(updated + nested.effects, tail, IsTimer);
        }
      } else {
        CountAppend(updated, tail, IsTimer);
      }
    }
  }

  /** The commands reachable through `next`, starting with `c`. */
  function Chain(c: StateCmd): (r: set<StateCmd>)
    ensures c in r
    decreases c
  {
    {c} + (if c.next.Some? then Chain(c.next.value) else {})
  }

  /** A parameter failure stops the command before it updates, schedules or logs anything. */
  lemma ParameterFailureHasNoEffect(c: StateCmd, logDisabled: bool)
    requires CheckParameters(c.variant).Some?
    ensures Run(c, logDisabled) == Outcome([], Err(CheckParameters(c.variant).value))
  {
  }

  /**
   * A job-state command (not cascading, no execution date): without a selector it
   * fails with nothing done; otherwise it updates the jobs of its most specific
   * selector exactly once, then logs the job operation.
   */
  lemma JobCommandRun(c: StateCmd)
    requires c.variant.Jobs? && !c.includeSubResources && c.executionDate.None? && c.next.None?
    ensures NoSelector(c.variant.selectors) ==> Run(c, false) == Outcome([], Err(NoJobSelector))
    ensures !NoSelector(c.variant.selectors) ==>
      exists kind: JobSelector, id: string ::
        && Selected(c.variant.selectors, kind) == Some(id)
        && (forall other: JobSelector :: Rank(other) < Rank(kind) ==> Selected(c.variant.selectors, other).None?)
        && Run(c, false) ==
             Outcome([SuspensionStateUpdated(JobsBy(kind, id), c.variant.newState),
                      OperationLogged(JobOperation(c.variant.operation, c.variant.selectors.jobId,
                                                   c.variant.selectors.jobDefinitionId,
                                                   c.variant.selectors.processInstanceId,
                                                   c.variant.selectors.processDefinitionId,
                                                   c.variant.selectors.processDefinitionKey,
                                                   PropertyChange("suspensionState", None,
                                                                  Some(c.variant.newState.Name()))))],
                     Ok(()))
  {
    if !NoSelector(c.variant.selectors) {
      var first := FirstSelector(c.variant.selectors).value;
      assert Selected(c.variant.selectors, first.0) == Some(first.1);
    }
  }

  // ---------------------------------------------------------------- the command objects

  /** A set-state command object: the template's fields, its variant and the command it cascades to. */
  class SetStateCmd {
    const includeSubResources: bool
    const executionDate: Option<Date>
    const variant: Variant
    /** getNextCommand: null unless a variant supplies a next command. */
    const next: SetStateCmd?
    var isLogUserOperationDisabled: bool
    ghost const Repr: set<object>

    ghost predicate Valid()
      decreases Repr
    {
      && this in Repr
      && (variant.Jobs? ==> !includeSubResources && executionDate.None? && next == null)
      && (next != null ==>
            next in Repr && next.Repr < Repr && this !in next.Repr && next.Valid())
    }

    /** The configuration this object and its chain of next commands stand for. */
    ghost function Model(): StateCmd
      requires Valid()
      decreases Repr
    {
      StateCmd(includeSubResources, executionDate, variant,
               if next == null then None else Some(next.Model()))
    }

    /** A command of a variant other than the job one. */
    constructor (includeSubResources: bool, executionDate: Option<Date>, variant: Variant,
                 next: SetStateCmd?)
      requires variant.Other?
      requires next != null ==> next.Valid()
      ensures Valid() && fresh(Repr - (if next == null then {} else next.Repr))
      ensures this.includeSubResources == includeSubResources && this.executionDate == executionDate
      ensures this.variant == variant && this.next == next
      ensures !isLogUserOperationDisabled
    {
      this.includeSubResources := includeSubResources;
      this.executionDate := executionDate;
      this.variant := variant;
      this.next := next;
      isLogUserOperationDisabled := false;
      Repr := {this} + (if next == null then {} else next.Repr);
    }

    /** A job-state command: no sub-resources, no execution date, no next command. */
    constructor ForJobs(selectors: JobSelectors, newState: SuspensionState, operation: string)
      ensures Valid() && fresh(Repr)
      ensures !includeSubResources && executionDate == None && next == null
      ensures variant == Jobs(selectors, newState, operation)
      ensures !isLogUserOperationDisabled
    {
      includeSubResources := false;
      executionDate := None;
      variant := Jobs(selectors, newState, operation);
      next := null;
      isLogUserOperationDisabled := false;
      Repr := {this};
    }

    /** disableLogUserOperation. */
    method DisableLogUserOperation()
      modifies this
      ensures isLogUserOperationDisabled
    {
      isLogUserOperationDisabled := true;
    }

    /** updateSuspensionState: the job variant issues the update of its first selector present. */
    method UpdateSuspensionState(cc: CommandContext, state: SuspensionState)
      modifies cc
      ensures cc.trace == old(cc.trace) + UpdateEffects(variant, state)
    {
      match variant
      case Jobs(s, _, _) =>
        if s.jobId.Some? {
          cc.trace := cc.trace + [SuspensionStateUpdated(JobsBy(ByJobId, s.jobId.value), state)];
        } else if s.jobDefinitionId.Some? {
          cc.trace := cc.trace + [SuspensionStateUpdated(JobsBy(ByJobDefinitionId, s.jobDefinitionId.value), state)];
        } else if s.processInstanceId.Some? {
          cc.trace := cc.trace + [SuspensionStateUpdated(JobsBy(ByProcessInstanceId, s.processInstanceId.value), state)];
        } else if s.processDefinitionId.Some? {
          cc.trace := cc.trace + [SuspensionStateUpdated(JobsBy(ByProcessDefinitionId, s.processDefinitionId.value), state)];
        } else if s.processDefinitionKey.Some? {
          cc.trace := cc.trace + [SuspensionStateUpdated(JobsBy(ByProcessDefinitionKey, s.processDefinitionKey.value), state)];
        }
      case Other(kind, _, _, _, _, _) =>
        cc.trace := cc.trace + [SuspensionStateUpdated(ResourcesOf(kind), state)];
    }

    /** scheduleSuspensionStateUpdate: one timer due at the execution date. */
    method ScheduleSuspensionStateUpdate(cc: CommandContext)
      requires executionDate.Some?
      modifies cc
      ensures cc.trace == old(cc.trace) +
        [TimerScheduled(Timer(executionDate.value, DelayedExecutionJobHandlerType(variant),
                              JobHandlerConfiguration(variant)))]
    {
      var jobHandlerConfiguration := JobHandlerConfiguration(variant);
      var timer := Timer(executionDate.value, DelayedExecutionJobHandlerType(variant),
                         jobHandlerConfiguration);
      cc.trace := cc.trace + [TimerScheduled(timer)];
    }

    /** logUserOperation. */
    method LogUserOperation(cc: CommandContext)
      modifies cc
      ensures cc.trace == old(cc.trace) + [OperationLogged(LogEntryFor(variant))]
    {
      cc.trace := cc.trace + [OperationLogged(LogEntryFor(variant))];
    }

    /**
     * execute: records the effects `Run` gives for this configuration and this
     * object's logging switch; a cascaded command has its logging switched off.
     */
    method Execute(cc: CommandContext) returns (r: Result<()>)
      requires Valid()
      modifies cc, Repr - {this}
      decreases Repr
      ensures var o := Run(Model(), old(isLogUserOperationDisabled));
              cc.trace == old(cc.trace) + o.effects && r == o.result
      ensures (next != null && includeSubResources && executionDate.None? &&
               CheckParameters(variant).None?) ==> next.isLogUserOperationDisabled
    {
      var check := CheckParameters(variant);
      if check.Some? {
        return Err(check.value);
      }
      if executionDate.None? {
        UpdateSuspensionState(cc, variant.newState);
        if includeSubResources && next != null {
          next.DisableLogUserOperation();
          var nested := next.Execute(cc);
          if nested.Err? {
            return nested;
          }
        }
      } else {
        ScheduleSuspensionStateUpdate(cc);
      }
      if !isLogUserOperationDisabled {
        LogUserOperation(cc);
      }
      r := Ok(());
    }
  }
}
