# ChopperBot core: a verified Dafny model

This project models three sequential cores of the ChopperBot crawler and
proves properties about them.

- **Per-task monitor registry**, class `MonitorCenter`, in `task_monitor.dfy`.
  - It keeps three maps per task: the registered monitor class, the live
    monitor instance and the handle of its periodic schedule.
  - `register`, `start`, `stop`, `close`, `getMonitor` and `getInitMonitor`
    are each specified by a pure function over a `Registry` value.
  - The class `TaskMonitor.MonitorCenter` holds the maps as fields. Each of
    its methods is proved to move its state exactly as its function says.
  - The cross-map invariant (`Consistent`) says that every scheduled task
    has a live instance, and that its schedule runs that instance.
  - A monitor instance is a value: its class and its taskId. Two instances
    built for the same task from the same class are equal, so "that
    instance" holds up to this equality.
  - Calls the registry makes to outside code are kept in an effect log:
    the monitor's `stop()` and `future.cancel(true)`.
- **Batch ingestion pipeline**, class `BarragePipelineWriteJson`, in
  `barrage_pipeline.dfy`.
  - `process` sorts a batch in place on an `array`, stably, and appends it
    to the FIFO queue.
  - The drain polls the queue item by item into an abstract `FileCache`
    sink and into the `res` list, then force-syncs the sink once.
  - A ghost record of every item ever enqueued, and of every item lost to a
    failed append, lets the model state conservation: each item is written,
    lost, or still queued, exactly once.
- **Hot-live recommendation**, class `HeatRecommendation`, in
  `heat_recommendation.dfy`. It covers:
  - the ban test;
  - the selection of the first `top` unbanned lives, including what it does
    when `top <= 0`;
  - the platform to follow-dog table that `init` builds;
  - the bounded event queue (capacity 1024) and its shutdown sentinel.

`wrappers.dfy` holds `Option`, which stands for a Java reference that may be
null, and `Min`.

Outside code is modelled as parameters:
- Reflection: the `@Monitor` annotation is an `Option<MonitorClass>`, and
  whether the no-argument constructor succeeds is a `bool`.
- A monitor's own `stop()` answer is a `bool`.
- Regular-expression search is a function `finds(pattern, text)`.
- Whether `FileCache.append` succeeds on an item is the sink's `accepts`
  predicate.
- Whether the plugin base class's `init()` succeeds is a `bool`.
- The module settings read from the configuration file are an
  `Option<seq<HotModuleSetting>>`. `None` means reading or parsing failed.

Two behaviours of the code are worth stating up front:
- A null batch is not a no-op: `process` still runs its `finally` block
  (see Findings).
- The drain returns the cumulative `successCount`, which is never reset,
  not the number of items this call wrote.

## Model

| member | source | states |
|---|---|---|
| `TaskMonitor.RegisterStep` | chopperbot-creeper/src/main/java/org/example/core/taskmonitor/MonitorCenter.java:43-50 | With an annotation, the task is bound to its class, and that binding replaces any earlier one. No other class binding changes. With no annotation, nothing changes. The instance and schedule maps never change, and the invariant is preserved. |
| `TaskMonitor.GetMonitorStep` | chopperbot-creeper/src/main/java/org/example/core/taskmonitor/MonitorCenter.java:92-108 | An existing instance is returned and nothing changes. Otherwise an instance exists afterwards iff a class is registered and construction succeeds. That instance carries the class and the taskId and is stored. It is the only change, and the invariant is preserved. |
| `TaskMonitor.StartStep` | chopperbot-creeper/src/main/java/org/example/core/taskmonitor/MonitorCenter.java:52-66 | The result is true iff there is a live instance, or a registered class whose construction succeeds. On false the state is unchanged. On true the task has an instance and a schedule. An already-scheduled task keeps its one schedule and, in a consistent state, nothing changes. Other tasks are untouched, and the invariant is preserved. |
| `TaskMonitor.StopStep` | chopperbot-creeper/src/main/java/org/example/core/taskmonitor/MonitorCenter.java:68-75 | The result is true iff a live instance exists and its own stop() says true. No map changes: the schedule survives. The effect log gains one stop call exactly when an instance exists. |
| `TaskMonitor.CloseStopThrowsStep` | chopperbot-creeper/src/main/java/org/example/core/taskmonitor/MonitorCenter.java:77-81 | close when the instance's stop() throws. The instance is already gone from monitorMap and the log shows the stop call. The class binding and the schedule stay. Without a live instance nothing changes. |
| `TaskMonitor.StopThrowsOrphansSchedule` | chopperbot-creeper/src/main/java/org/example/core/taskmonitor/MonitorCenter.java:52-66 | After a throwing stop() on a scheduled task, the invariant fails: the schedule of the removed instance is left with no live instance. A later start with the class still registered builds a new instance and returns true, but schedules nothing. |
| `TaskMonitor.CloseStep` | chopperbot-creeper/src/main/java/org/example/core/taskmonitor/MonitorCenter.java:77-90 | The result is true iff a live instance exists. Then the task leaves all three maps and all other entries stay. The log gains the stop call, then a cancel of the schedule if there was one. Without an instance nothing changes, even when a class is registered. |
| `TaskMonitor.GetInitMonitorStep` | chopperbot-creeper/src/main/java/org/example/core/taskmonitor/MonitorCenter.java:110-115 | Returns the live instance iff one exists. It never creates one. In a consistent state the instance belongs to the queried task. |
| `TaskMonitor.RunKeepsConsistent` | chopperbot-creeper/src/main/java/org/example/core/taskmonitor/MonitorCenter.java:52-90 | Every scheduled task has a live instance, and its schedule runs that instance with delays 0 and 1000 ms. This holds after any sequence of register, start, stop, close and getInitMonitor calls, for monitors whose stop() returns normally. |
| `TaskMonitor.UnknownTaskStaysUnknown` | chopperbot-creeper/src/main/java/org/example/core/taskmonitor/MonitorCenter.java:92-108 | A task absent from all three maps stays absent through any calls that do not register a class for it. start on it then returns false. |
| `TaskMonitor.CloseThenStartFails` | chopperbot-creeper/src/main/java/org/example/core/taskmonitor/MonitorCenter.java:77-108 | After a successful close, start returns false after any calls that do not register the task again. |
| `TaskMonitor.StartIsIdempotent` | chopperbot-creeper/src/main/java/org/example/core/taskmonitor/MonitorCenter.java:52-61 | A second start after a successful start returns true and changes nothing. So there is one instance and one schedule per task. |
| `TaskMonitor.RegisterThenStart` | chopperbot-creeper/src/main/java/org/example/core/taskmonitor/MonitorCenter.java:43-61 | register followed by a start whose construction succeeds returns true. It adds exactly one instance, built from the registered class, and its one fixed-delay schedule. |
| `TaskMonitor.MonitorCenter.Init` | chopperbot-creeper/src/main/java/org/example/core/taskmonitor/MonitorCenter.java:32-41 | init leaves the three maps empty and the invariant holding. |
| `TaskMonitor.MonitorCenter.Register` | chopperbot-creeper/src/main/java/org/example/core/taskmonitor/MonitorCenter.java:43-50 | Updates the fields in place exactly as RegisterStep says, and keeps the invariant. |
| `TaskMonitor.MonitorCenter.GetMonitor` | chopperbot-creeper/src/main/java/org/example/core/taskmonitor/MonitorCenter.java:92-108 | Returns and updates exactly as GetMonitorStep says, and keeps the invariant. |
| `TaskMonitor.MonitorCenter.Start` | chopperbot-creeper/src/main/java/org/example/core/taskmonitor/MonitorCenter.java:52-66 | Returns and updates exactly as StartStep says, and keeps the invariant. |
| `TaskMonitor.MonitorCenter.Stop` | chopperbot-creeper/src/main/java/org/example/core/taskmonitor/MonitorCenter.java:68-75 | Returns and updates exactly as StopStep says, and keeps the invariant. |
| `TaskMonitor.MonitorCenter.Close` | chopperbot-creeper/src/main/java/org/example/core/taskmonitor/MonitorCenter.java:77-90 | Returns and updates exactly as CloseStep says, and keeps the invariant. |
| `TaskMonitor.MonitorCenter.GetInitMonitor` | chopperbot-creeper/src/main/java/org/example/core/taskmonitor/MonitorCenter.java:110-115 | Reads the fields and returns what GetInitMonitorStep returns. |
| `BarragePipeline.SortByKey` | CreeperModule/src/main/java/org/example/core/pipeline/BarragePipelineWriteJson.java:60 | Sorts the caller's list in place by the item ordering. The result is a sorted permutation of the original. It is stable: for every key, the items with that key keep their relative order. |
| `BarragePipeline.FirstRejected` | CreeperModule/src/main/java/org/example/core/pipeline/BarragePipelineWriteJson.java:83-87 | The index at which the drain aborts. Every earlier item is accepted by the sink, and the item at the index, if any, is rejected. |
| `BarragePipeline.ConservedPoll` | CreeperModule/src/main/java/org/example/core/pipeline/BarragePipelineWriteJson.java:79-89 | Polling the queue head into res, or into the lost items, keeps the multiset of enqueued items equal to res plus lost plus queue. |
| `BarragePipeline.FileCache.Append` | CreeperModule/src/main/java/org/example/core/pipeline/BarragePipelineWriteJson.java:84 | Succeeds iff the sink accepts the item. Only on success is the record added to the sink's log. |
| `BarragePipeline.FileCache.ForceSync` | CreeperModule/src/main/java/org/example/core/pipeline/BarragePipelineWriteJson.java:92 | Counts one force-sync. |
| `BarragePipeline.BarragePipelineWriteJson.constructor` | CreeperModule/src/main/java/org/example/core/pipeline/BarragePipelineWriteJson.java:33-50 | A fresh pipeline has its own sink, an empty queue, an empty res, successCount 0, no producer in flight and the lock free. The sink is assumed never to read or poll the queue, and building it is assumed never to fail. |
| `BarragePipeline.BarragePipelineWriteJson.Process` | CreeperModule/src/main/java/org/example/core/pipeline/BarragePipelineWriteJson.java:52-68 | Intended process. A non-null batch is sorted in place, stably, into a permutation of itself, then appended after the untouched old queue. A null batch leaves the queue unchanged. The counter is restored, the lock released, and res and successCount are untouched. |
| `BarragePipeline.BarragePipelineWriteJson.ProcessAsWritten` | CreeperModule/src/main/java/org/example/core/pipeline/BarragePipelineWriteJson.java:52-68 | process as written. The non-null case behaves as in Process. A null batch still decrements the counter to one below its old value. It then ends in IllegalMonitorStateException, because unlock() is called on a lock that is not held. |
| `BarragePipeline.BarragePipelineWriteJson.CacheSize` | CreeperModule/src/main/java/org/example/core/pipeline/BarragePipelineWriteJson.java:70-72 | The queue length. |
| `BarragePipeline.BarragePipelineWriteJson.GetResult` | CreeperModule/src/main/java/org/example/core/pipeline/BarragePipelineWriteJson.java:96-98 | Returns res. Its length is successCount, and its items are those logged by the sink, in the same order. |
| `BarragePipeline.BarragePipelineWriteJson.PollOnce` | CreeperModule/src/main/java/org/example/core/pipeline/BarragePipelineWriteJson.java:79-90 | One loop iteration. An empty queue changes nothing. Otherwise the head leaves the queue. If the append succeeds, the head joins res and the sink and the count goes up by one. If it fails, the head is neither in res nor in the sink, and the failure is reported. Every outcome keeps successCount == \|res\|, the sink's log matching res, and conservation. |
| `BarragePipeline.BarragePipelineWriteJson.WriteHead` | CreeperModule/src/main/java/org/example/core/pipeline/BarragePipelineWriteJson.java:83-89 | The head is appended to the sink and leaves the queue. On success it is added to res and counted. On failure it is neither in res nor in the sink. Nothing else changes. |
| `BarragePipeline.BarragePipelineWriteJson.WriteDataToFileAndFlushCache` | CreeperModule/src/main/java/org/example/core/pipeline/BarragePipelineWriteJson.java:75-94 | With k the index of the first rejected item: res and the sink gain the first k queued items, in FIFO order, and successCount grows by k. If every item is accepted, the queue ends empty, the sink syncs exactly once and the cumulative count is returned. Otherwise the drain aborts on item k: it has left the queue, is in neither res nor the sink, and no sync happens. Conservation and successCount == \|res\| are kept. |
| `BarragePipeline.NullBatchStallsDrain` | CreeperModule/src/main/java/org/example/core/pipeline/BarragePipelineWriteJson.java:57-78 | On a fresh pipeline, process(null) leaves the counter at -1 with an empty queue. A drain iteration then changes nothing and the loop condition still holds. |
| `HeatRecommendation.IsBan` | chopperbot-hot/src/main/java/org/example/core/recommend/HeatRecommendation.java:166-173 | True iff some ban pattern is found in the liver. Always false for an empty ban list. |
| `HeatRecommendation.Unbanned` | chopperbot-hot/src/main/java/org/example/core/recommend/HeatRecommendation.java:153-159 | The filter in both directions: no result is banned, and every unbanned live of the input is in the result. The result is no longer than the input. |
| `HeatRecommendation.UnbannedCounts` | chopperbot-hot/src/main/java/org/example/core/recommend/HeatRecommendation.java:153-159 | Counted with multiplicity: each unbanned live occurs in the result exactly as often as in the input, and a banned one not at all. |
| `HeatRecommendation.UnbannedIsSubsequence` | chopperbot-hot/src/main/java/org/example/core/recommend/HeatRecommendation.java:153-159 | The filter keeps input order: its result is a subsequence of the lives. |
| `HeatRecommendation.RecommendationProperties` | chopperbot-hot/src/main/java/org/example/core/recommend/HeatRecommendation.java:148-164 | The recommendation is a subsequence of the lives with no banned live. For top >= 1 it is the first min(top, #unbanned) unbanned lives. For top <= 0 it is [lives[0]] when that live exists and is not banned, and empty otherwise. |
| `HeatRecommendation.EarlyStopIsRecommendation` | chopperbot-hot/src/main/java/org/example/core/recommend/HeatRecommendation.java:160 | When the loop breaks with top unbanned lives from a prefix, those are the first top unbanned lives of the whole list. |
| `HeatRecommendation.NeedRecommend` | chopperbot-hot/src/main/java/org/example/core/recommend/HeatRecommendation.java:148-164 | The loop with its early break returns exactly the recommendation above. |
| `HeatRecommendation.FollowDogMapContents` | chopperbot-hot/src/main/java/org/example/core/recommend/HeatRecommendation.java:69-73 | A platform is in the table iff some module enables the follow dog for it. It maps to the follow-dog list of the last module that does. |
| `HeatRecommendation.Offer` | chopperbot-hot/src/main/java/org/example/core/recommend/HeatRecommendation.java:57 | ArrayBlockingQueue.offer with capacity 1024: appends when there is room, drops the element when full. The size never exceeds 1024. |
| `HeatRecommendation.OfferAllKeepsEarliest` | chopperbot-hot/src/main/java/org/example/core/recommend/HeatRecommendation.java:175-177 | After any sequence of hot events, the queue is the old contents followed by the earliest events that fit: FIFO order with first-come admission. |
| `HeatRecommendation.HeatRecommendation.constructor` | chopperbot-hot/src/main/java/org/example/core/recommend/HeatRecommendation.java:43-51 | A new plugin is not initialized: the table and the queue do not exist until init creates them. |
| `HeatRecommendation.HeatRecommendation.Init` | chopperbot-hot/src/main/java/org/example/core/recommend/HeatRecommendation.java:53-78 | init creates an empty queue and marks the plugin initialized, builds the table as FollowDogMap of the settings, and returns true iff the settings were read and the base class's init succeeds. When reading fails the table stays empty and init returns false. |
| `HeatRecommendation.HeatRecommendation.SendHotEvent` | chopperbot-hot/src/main/java/org/example/core/recommend/HeatRecommendation.java:175-177 | Only after init. The queue becomes Offer of the old queue and the platform. The table is unchanged. |
| `HeatRecommendation.HeatRecommendation.Shutdown` | chopperbot-hot/src/main/java/org/example/core/recommend/HeatRecommendation.java:133-139 | Only after init. The "shutdown" sentinel is enqueued iff the queue is empty. Otherwise the queue is unchanged. |

## Left out

- Concurrency: the model is a sequential interleaving of single calls. It leaves out:
  - the `ReentrantLock` and the `AtomicInteger`, which become a `locked` flag and an integer counter;
  - the thread safety of `ConcurrentLinkedQueue`;
  - the 20-thread scheduled pool and fixed-delay timing.
  - The per-task atomicity that the registry would need under concurrent calls is also outside the model.
- BarragePipeline.BarragePipelineWriteJson.WriteDataToFileAndFlushCache: requires no producer in flight (counter 0, lock free). The busy wait on a producer still inside `process` is not modelled, because without threads that counter cannot drop while the drain runs.
- BarragePipeline.BarragePipelineWriteJson.ProcessAsWritten: requires a clean state (counter 0, lock free). Further calls after its exception, with the counter at -1, are modelled only by NullBatchStallsDrain.
- BarragePipeline.SortByKey: the item ordering is an integer key, so an ordering that compares more than one field is not modelled.
- BarragePipeline.BarragePipelineWriteJson.WriteDataToFileAndFlushCache: on an append failure the source throws a `RuntimeException` that wraps the FileCache exception, and the failing item is not handed back. The item carried by `AppendFailed` is something the model adds, so its contract can name the item that was lost.
- BarragePipeline.BarragePipelineWriteJson.GetResult: returns the value of `res`. The aliasing of the returned `List` with the field is not modelled.
- The 32-bit wrap-around of `successCount` is not modelled: it is an unbounded integer.
- The progress print every 1000 items, and all logging, are left out because they are output only.
- `FileCache` internals are left out. This covers the 10 KiB buffering threshold, physical writes, serialization and the distinct exception types of `append`. Only an append log, an acceptance predicate and a sync counter remain.
- `forceSync` failing is not modelled.
- Reflection and annotation lookup are left out. They are parameters, as listed above.
- TaskMonitor.Monitor: an instance has no identity of its own. So the effect log cannot tell an old instance of a task from a new one built from the same class after a close.
- The bodies of a monitor's `monitor()` and `stop()` are left out. `stop()` contributes only its boolean answer.
- TaskMonitor.CloseStep: takes the monitor's stop() and monitor() to return normally. This applies to `Op`, `Run`, `RunKeepsConsistent` and `MonitorCenter.Close` too. If stop() throws at MonitorCenter.java:80, the instance is already removed (line 79), but the class binding (81) and the schedule (83-84) stay. That outcome is modelled only on its own, by `CloseStopThrowsStep` and `StopThrowsOrphansSchedule`. It is not an `Op`, so `RunKeepsConsistent` does not cover it.
- TaskMonitor.StartStep: a monitor() that throws ends its fixed-delay schedule, but the handle stays in monitorThreadMap, so start keeps returning true with nothing running. The model's `Handle` has no "terminated" state and does not capture that.
- BarragePipeline.FileCache.Append: the sink's verdict is a fixed function of the item value. Two equal items always get the same outcome, so an I/O failure on the second of two equal items cannot be described.
- `future.cancel(true)` is only recorded in the effect log. The interrupt of a running `monitor()` is not modelled.
- The `init()` of `MonitorCenter` calls `super.init()`; the result of that call is not modelled.
- `HeatRecommendation.start` is left out, because it is timed polling and request dispatch to other plugins. This covers its `poll(5 ms)`, the `HotModuleDataCenter` lookups, `PluginCheckAndDo` and `TaskCenter.request`.
- `main` is left out.
- `super.shutdown()` is left out.
- JSON parsing of the module settings is left out (`FileCacheManagerInstance`, fastjson). It becomes the `Option<seq<HotModuleSetting>>` parameter of `Init`.
- HeatRecommendation.HeatRecommendation.Init: ConcurrentHashMap rejects null keys and values with a NullPointerException. That exception, for a setting with a null platform or follow-dog list, is not modelled: strings and sequences here are never null.
- BarragePipeline.BarragePipelineWriteJson.constructor: two behaviours of the source are not modelled.
  - The source hands the queue `cache` itself to the sink's `BarrageSaveFile`, and `FileCache` is built around it. The model's `FileCache` holds no reference to the queue. So conservation and the FIFO drain are proved only for a sink that never reads or polls the queue, which FileCache and BarrageSaveFile would have to confirm, and they are not part of this model.
  - The source throws a `RuntimeException` when building `FileCache` fails. The model's constructor always succeeds.
- TaskMonitor.MonitorCenter.Init: the Java constructor leaves all three maps null until `init()`. So `register`, `start`, `stop`, `close` and `getInitMonitor` throw NullPointerException before `init`. The model's only constructor is `init`, so that state and those exceptions are not represented.
- HeatRecommendation.HeatRecommendation.SendHotEvent: requires init to have run. Before init the queue is null, and the NullPointerException that `sendHotEvent` and `shutdown` then throw is not modelled as an outcome.
- HeatRecommendation.HeatRecommendation.Shutdown: requires init to have run, for the same reason. The NullPointerException thrown before init is not modelled.
- HeatRecommendation.IsBan: Java regular-expression semantics are not modelled, and neither is `PatternSyntaxException` for a malformed pattern. Search is the `finds` parameter.
- `TaskCenterInitMachine` is left out, because it holds no logic: CreeperModule/src/main/java/org/example/init/TaskCenterInitMachine.java only declares plugin dependencies and delegates `shutdown`.
- The plugin lifecycle manager is not part of this model.

## Findings

| source | as written | input that shows it | evidently intended | confidence | as-written member | corrected member |
|---|---|---|---|---|---|---|
| CreeperModule/src/main/java/org/example/core/pipeline/BarragePipelineWriteJson.java:57-66 | The `finally` block decrements `alreadyCount` and calls `lock.unlock()` even when `barrageList` is null. In that case the counter was never incremented and the lock never taken. The counter drops to -1 and `unlock()` throws IllegalMonitorStateException. With the counter at -1, `writeDataToFileAndFlushCache`'s condition `alreadyCount != 0` stays true, so the drain never ends. | `process` on a fresh pipeline whose result items have no "barrageList", followed by `writeDataToFileAndFlushCache` | A null batch is a no-op: the counter and the lock are touched only inside the `if`, and both are restored. | not executed | `BarragePipeline.BarragePipelineWriteJson.ProcessAsWritten`, `BarragePipeline.NullBatchStallsDrain` | `BarragePipeline.BarragePipelineWriteJson.Process` |
