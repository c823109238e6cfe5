/** The per-task monitor registry of the crawler (class MonitorCenter).
    Three maps are kept per task: the registered monitor class, the live
    monitor instance and the handle of its periodic schedule. The pure
    functions below are the specification of each operation over a
    Registry value; the class MonitorCenter at the end holds the maps as
    fields and updates them in place, each method proved to move its state
    exactly as the corresponding function says. */
module TaskMonitor {
  import opened Wrappers

  type TaskId = string

  /** The monitor class named by a task's annotation. */
  datatype MonitorClass = MonitorClass(name: string)

  /** A live monitor instance: built from its class, with its taskId set. */
  datatype Monitor = Monitor(clazz: MonitorClass, taskId: TaskId)

  /** The schedule parameters of `scheduleWithFixedDelay(monitor::monitor, 0, 1000, MILLISECONDS)`. */
  const InitialDelayMs: int := 0
  const DelayMs: int := 1000

  /** An abstract handle of a periodic schedule: what runs and how often. */
  datatype Handle = FixedDelay(monitor: Monitor, initialDelayMs: int, delayMs: int)

  /** Calls the registry makes into code outside it, in order. */
  datatype Effect =
    | StopCalled(stopped: Monitor)   // the monitor's own stop()
    | Cancelled(handle: Handle)      // future.cancel(true)

  /** monitorClazzMap, monitorMap, monitorThreadMap and the log of outside calls. */
  datatype Registry = Registry(
    classes: map<TaskId, MonitorClass>,
    monitors: map<TaskId, Monitor>,
    schedules: map<TaskId, Handle>,
    effects: seq<Effect>)

  /** The state right after init(). */
  const Initial: Registry := Registry(map[], map[], map[], [])

  /** The cross-map invariant: every scheduled task has a live instance, the
      schedule runs that very instance, and every instance knows its task. */
  predicate Consistent(r: Registry)
  {
    && r.schedules.Keys <= r.monitors.Keys
    && (forall t :: t in r.monitors ==> r.monitors[t].taskId == t)
    && (forall t :: t in r.schedules ==>
          t in r.monitors && r.schedules[t] == FixedDelay(r.monitors[t], InitialDelayMs, DelayMs))
  }

  /** register(taskId, loadTask): `annotation` is the @Monitor annotation of
      the task's class, None when it is missing (the NullPointerException is
      caught before the put, so nothing changes). */
  function RegisterStep(r: Registry, taskId: TaskId, annotation: Option<MonitorClass>): (r': Registry)
    ensures annotation.None? ==> r' == r
    ensures annotation.Some? ==>
      && taskId in r'.classes && r'.classes[taskId] == annotation.value
      && r'.classes - {taskId} == r.classes - {taskId}
    ensures r'.monitors == r.monitors && r'.schedules == r.schedules && r'.effects == r.effects
    ensures Consistent(r) ==> Consistent(r')
  {
    match annotation
    case None => r
    case Some(c) => r.(classes := r.classes[taskId := c])
  }

  /** getMonitor(taskId): the live instance if there is one; otherwise, when a
      class is registered, a new instance built from it (`instantiates` says
      whether the reflective no-argument construction succeeds) and stored. */
  function GetMonitorStep(r: Registry, taskId: TaskId, instantiates: bool): (res: (Option<Monitor>, Registry))
    ensures taskId in r.monitors ==> res == (Some(r.monitors[taskId]), r)
    ensures res.0.Some? <==> taskId in r.monitors || (taskId in r.classes && instantiates)
    ensures res.0.None? ==> res.1 == r
    ensures res.0.Some? ==> taskId in res.1.monitors && res.1.monitors[taskId] == res.0.value
    ensures res.0.Some? && taskId !in r.monitors ==> res.0.value == Monitor(r.classes[taskId], taskId)
    ensures res.1.monitors - {taskId} == r.monitors - {taskId}
    ensures res.1.classes == r.classes && res.1.schedules == r.schedules && res.1.effects == r.effects
    ensures Consistent(r) ==> Consistent(res.1)
  {
    if taskId in r.monitors then (Some(r.monitors[taskId]), r)
    else if taskId in r.classes && instantiates then
      var m := Monitor(r.classes[taskId], taskId);
      (Some(m), r.(monitors := r.monitors[taskId := m]))
    else (None, r)
  }

  /** start(taskId): obtain the monitor, then schedule it unless it already is. */
  function StartStep(r: Registry, taskId: TaskId, instantiates: bool): (res: (bool, Registry))
    ensures res.0 <==> taskId in r.monitors || (taskId in r.classes && instantiates)
    ensures !res.0 ==> res.1 == r
    ensures res.0 ==> taskId in res.1.monitors && taskId in res.1.schedules
    ensures taskId in r.schedules ==> res.1.schedules == r.schedules
    ensures Consistent(r) && taskId in r.schedules ==> res == (true, r)
    ensures res.1.monitors - {taskId} == r.monitors - {taskId}
    ensures res.1.schedules - {taskId} == r.schedules - {taskId}
    ensures res.1.classes == r.classes && res.1.effects == r.effects
    ensures Consistent(r) ==> Consistent(res.1)
  {
    var (m, r1) := GetMonitorStep(r, taskId, instantiates);
    if m.None? then (false, r1)
    else if taskId in r1.schedules then (true, r1)
    else (true, r1.(schedules := r1.schedules[taskId := FixedDelay(m.value, InitialDelayMs, DelayMs)]))
  }

  /** stop(taskId): forwards to the live monitor's stop(), whose answer is
      `monitorStops`; the schedule is NOT cancelled. */
  function StopStep(r: Registry, taskId: TaskId, monitorStops: bool): (res: (bool, Registry))
    ensures res.0 <==> taskId in r.monitors && monitorStops
    ensures res.1.classes == r.classes && res.1.monitors == r.monitors && res.1.schedules == r.schedules
    ensures taskId in r.monitors ==> res.1.effects == r.effects + [StopCalled(r.monitors[taskId])]
    ensures taskId !in r.monitors ==> res.1 == r
    ensures Consistent(r) ==> Consistent(res.1)
  {
    if taskId in r.monitors then
      (monitorStops, r.(effects := r.effects + [StopCalled(r.monitors[taskId])]))
    else (false, r)
  }

  /** close(taskId): with a live instance, removes the task from all three
      maps, stops the instance and cancels its schedule if it has one. */
  function CloseStep(r: Registry, taskId: TaskId): (res: (bool, Registry))
    ensures res.0 <==> taskId in r.monitors
    ensures !res.0 ==> res.1 == r
    ensures res.0 ==>
      && taskId !in res.1.classes && taskId !in res.1.monitors && taskId !in res.1.schedules
      && res.1.classes == r.classes - {taskId}
      && res.1.monitors == r.monitors - {taskId}
      && res.1.schedules == r.schedules - {taskId}
      && res.1.effects == r.effects + [StopCalled(r.monitors[taskId])]
                         + (if taskId in r.schedules then [Cancelled(r.schedules[taskId])] else [])
    ensures Consistent(r) ==> Consistent(res.1)
  {
    if taskId in r.monitors then
      var m := r.monitors[taskId];
      var cancels := if taskId in r.schedules then [Cancelled(r.schedules[taskId])] else [];
      (true, Registry(r.classes - {taskId}, r.monitors - {taskId}, r.schedules - {taskId},
                      r.effects + [StopCalled(m)] + cancels))
    else (false, r)
  }

  /** close(taskId) when the instance's own stop() throws: the instance has
      already been taken out of monitorMap, and the exception leaves close
      before the class binding and the schedule are removed. Without a
      live instance stop() is never called, so nothing changes. */
  function CloseStopThrowsStep(r: Registry, taskId: TaskId): (r': Registry)
    ensures taskId !in r.monitors ==> r' == r
    ensures taskId in r.monitors ==>
      && r'.monitors == r.monitors - {taskId}
      && r'.classes == r.classes && r'.schedules == r.schedules
      && r'.effects == r.effects + [StopCalled(r.monitors[taskId])]
  {
    if taskId in r.monitors then
      r.(monitors := r.monitors - {taskId}, effects := r.effects + [StopCalled(r.monitors[taskId])])
    else r
  }

  /** A throwing stop() on a scheduled task breaks the cross-map invariant:
      the schedule outlives its instance. A later start with the class still
      registered builds a new instance and reports success, yet schedules
      nothing: the schedule in place is still the one of the removed
      instance. */
  lemma StopThrowsOrphansSchedule(r: Registry, taskId: TaskId)
    requires Consistent(r) && taskId in r.schedules
    ensures var r' := CloseStopThrowsStep(r, taskId);
      && !Consistent(r')
      && taskId in r'.schedules && taskId !in r'.monitors
      && r'.schedules[taskId] == FixedDelay(r.monitors[taskId], InitialDelayMs, DelayMs)
    ensures taskId in r.classes ==>
      var (ok, r'') := StartStep(CloseStopThrowsStep(r, taskId), taskId, true);
      && ok
      && r''.monitors[taskId] == Monitor(r.classes[taskId], taskId)
      && r''.schedules == r.schedules
  {
  }

  /** getInitMonitor(taskId): a lookup only. */
  function GetInitMonitorStep(r: Registry, taskId: TaskId): (m: Option<Monitor>)
    ensures m.Some? <==> taskId in r.monitors
    ensures m.Some? ==> m.value == r.monitors[taskId]
    ensures Consistent(r) && m.Some? ==> m.value.taskId == taskId
  {
    if taskId in r.monitors then Some(r.monitors[taskId]) else None
  }

  /** A call on the public interface, with the outcomes of the code the
      registry calls out to (reflection, the monitor's stop()). */
  datatype Op =
    | RegisterOp(taskId: TaskId, annotation: Option<MonitorClass>)
    | StartOp(taskId: TaskId, instantiates: bool)
    | StopOp(taskId: TaskId, monitorStops: bool)
    | CloseOp(taskId: TaskId)
    | GetInitMonitorOp(taskId: TaskId)

  function Apply(r: Registry, op: Op): (r': Registry)
  {
    match op
    case RegisterOp(t, a) => RegisterStep(r, t, a)
    case StartOp(t, i) => StartStep(r, t, i).1
    case StopOp(t, s) => StopStep(r, t, s).1
    case CloseOp(t) => CloseStep(r, t).1
    case GetInitMonitorOp(_) => r
  }

  /** The registry after the calls `ops`, in order. */
  function Run(r: Registry, ops: seq<Op>): (r': Registry)
    decreases |ops|
  {
    if ops == [] then r else Run(Apply(r, ops[0]), ops[1..])
  }

  /** True when `ops` registers a monitor class for `taskId` somewhere. */
  predicate RegistersClassFor(ops: seq<Op>, taskId: TaskId)
  {
    exists i :: 0 <= i < |ops| && ops[i].RegisterOp? && ops[i].taskId == taskId && ops[i].annotation.Some?
  }

  /** The cross-map invariant holds after every sequence of calls from init(). */
  lemma {:induction false} RunKeepsConsistent(r: Registry, ops: seq<Op>)
    requires Consistent(r)
    ensures Consistent(Run(r, ops))
    decreases |ops|
  {
    if ops != [] {
      var r1 := Apply(r, ops[0]);
      assert Consistent(r1);
      RunKeepsConsistent(r1, ops[1..]);
    }
  }

  /** A task the registry knows nothing about stays unknown until some call
      registers a class for it: no instance, no schedule, and start fails. */
  lemma {:induction false} UnknownTaskStaysUnknown(r: Registry, ops: seq<Op>, taskId: TaskId)
    requires taskId !in r.classes && taskId !in r.monitors && taskId !in r.schedules
    requires !RegistersClassFor(ops, taskId)
    ensures var r' := Run(r, ops);
      taskId !in r'.classes && taskId !in r'.monitors && taskId !in r'.schedules
    ensures forall instantiates: bool :: !StartStep(Run(r, ops), taskId, instantiates).0
    decreases |ops|
  {
    if ops != [] {
      var r1 := Apply(r, ops[0]);
      assert taskId !in r1.classes && taskId !in r1.monitors && taskId !in r1.schedules;
      assert !RegistersClassFor(ops[1..], taskId) by {
        forall i | 0 <= i < |ops| - 1
          ensures !(ops[1..][i].RegisterOp? && ops[1..][i].taskId == taskId && ops[1..][i].annotation.Some?)
        {
          assert ops[1..][i] == ops[i + 1];
        }
      }
      UnknownTaskStaysUnknown(r1, ops[1..], taskId);
    }
  }

  /** close followed by any calls that do not register the task again
      leaves start returning false: registration is required again. */
  lemma CloseThenStartFails(r: Registry, taskId: TaskId, ops: seq<Op>, instantiates: bool)
    requires CloseStep(r, taskId).0
    requires !RegistersClassFor(ops, taskId)
    ensures !StartStep(Run(CloseStep(r, taskId).1, ops), taskId, instantiates).0
  {
    UnknownTaskStaysUnknown(CloseStep(r, taskId).1, ops, taskId);
  }

  /** Two starts in a row give one instance and one schedule: the second
      start succeeds and changes nothing. */
  lemma StartIsIdempotent(r: Registry, taskId: TaskId, first: bool, second: bool)
    requires Consistent(r)
    requires StartStep(r, taskId, first).0
    ensures StartStep(StartStep(r, taskId, first).1, taskId, second) == (true, StartStep(r, taskId, first).1)
  {
  }

  /** A registered class with no live instance yields exactly one new
      instance, scheduled once, when construction succeeds. */
  lemma RegisterThenStart(r: Registry, taskId: TaskId, c: MonitorClass)
    requires Consistent(r) && taskId !in r.monitors
    ensures var (ok, r') := StartStep(RegisterStep(r, taskId, Some(c)), taskId, true);
      && ok
      && r'.monitors == r.monitors[taskId := Monitor(c, taskId)]
      && r'.schedules == r.schedules[taskId := FixedDelay(Monitor(c, taskId), InitialDelayMs, DelayMs)]
  {
  }

  /** The plugin object: the three HashMap fields, updated in place, and the
      log of calls made to monitors and schedule handles. */
  class MonitorCenter {
    var monitorClazzMap: map<TaskId, MonitorClass>
    var monitorMap: map<TaskId, Monitor>
    var monitorThreadMap: map<TaskId, Handle>
    var effects: seq<Effect>

    function State(): Registry
      reads this
    {
      Registry(monitorClazzMap, monitorMap, monitorThreadMap, effects)
    }

    ghost predicate Valid()
      reads this
    {
      Consistent(State())
    }

    /** init(): fresh, empty maps. */
    constructor Init()
      ensures Valid() && State() == Initial
    {
      monitorClazzMap, monitorMap, monitorThreadMap := map[], map[], map[];
      effects := [];
    }

    method Register(taskId: TaskId, annotation: Option<MonitorClass>)
      requires Valid()
      modifies this
      ensures Valid()
      ensures State() == RegisterStep(old(State()), taskId, annotation)
    {
      if annotation.Some? {
        monitorClazzMap := monitorClazzMap[taskId := annotation.value];
      }
    }

    /** The private getMonitor: may store a newly built instance. */
    method GetMonitor(taskId: TaskId, instantiates: bool) returns (m: Option<Monitor>)
      requires Valid()
      modifies this
      ensures Valid()
      ensures (m, State()) == GetMonitorStep(old(State()), taskId, instantiates)
    {
      if taskId in monitorMap {
        m := Some(monitorMap[taskId]);
      } else if taskId in monitorClazzMap {
        if instantiates {
          var commonTaskMonitor := Monitor(monitorClazzMap[taskId], taskId);
          monitorMap := monitorMap[taskId := commonTaskMonitor];
          m := Some(commonTaskMonitor);
        } else {
          m := None;
        }
      } else {
        m := None;
      }
    }

    method Start(taskId: TaskId, instantiates: bool) returns (ok: bool)
      requires Valid()
      modifies this
      ensures Valid()
      ensures (ok, State()) == StartStep(old(State()), taskId, instantiates)
    {
      var monitor := GetMonitor(taskId, instantiates);
      if monitor.Some? {
        if taskId in monitorThreadMap {
          return true;
        }
        var scheduledFuture := FixedDelay(monitor.value, InitialDelayMs, DelayMs);
        monitorThreadMap := monitorThreadMap[taskId := scheduledFuture];
        return true;
      }
      return false;
    }

    method Stop(taskId: TaskId, monitorStops: bool) returns (ok: bool)
      requires Valid()
      modifies this
      ensures Valid()
      ensures (ok, State()) == StopStep(old(State()), taskId, monitorStops)
    {
      if taskId in monitorMap {
        var monitor := monitorMap[taskId];
        effects := effects + [StopCalled(monitor)];
        return monitorStops;
      }
      return false;
    }

    method Close(taskId: TaskId) returns (ok: bool)
      requires Valid()
      modifies this
      ensures Valid()
      ensures (ok, State()) == CloseStep(old(State()), taskId)
    {
      if taskId in monitorMap {
        var monitor := monitorMap[taskId];
        monitorMap := monitorMap - {taskId};
        effects := effects + [StopCalled(monitor)];
        monitorClazzMap := monitorClazzMap - {taskId};
        var future := if taskId in monitorThreadMap then Some(monitorThreadMap[taskId]) else None;
        monitorThreadMap := monitorThreadMap - {taskId};
        if future.Some? {
          effects := effects + [Cancelled(future.value)];
        } else {
          assert effects == old(effects) + [StopCalled(monitor)] + [];
        }
        return true;
      }
      return false;
    }

    /** getInitMonitor(taskId): reads the live instance, never creates one. */
    function GetInitMonitor(taskId: TaskId): (m: Option<Monitor>)
      reads this
      ensures m == GetInitMonitorStep(State(), taskId)
    {
      if taskId in monitorMap then Some(monitorMap[taskId]) else None
    }
  }
}
