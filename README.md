# Cluster membership manager of the Pinpoint collector

This project models `ZookeeperProfilerClusterManager`, the collector component that publishes which agents are reachable through this collector. It handles three jobs:

- **Lifecycle.** `start()` and `stop()` move a `WorkerState` cell through NEW, INITIALIZING, STARTED, DESTROYING and STOPPED using compare-and-set transitions. They also start and stop the job worker.
- **Socket events.** `eventPerformed` handles socket state changes. While the manager is STARTED, it registers an agent whose socket reaches `RUN_DUPLEX_COMMUNICATION`: it puts an `UpdateJob` holding the serialised record `{agent, state}` and adds the channel to the `ProfilerClusterPoint` registry. It unregisters an agent whose socket has finished: it puts a `DeleteJob` and removes the channel. It skips everything else, including agents with no application name or agent id.
- **Reads.** `getData` returns a channel's record from the worker's cache as a map. Absence and unreadable contents both give the empty map.

Layout:

- `lifecycle.dfy` models `start()` and `stop()` as functions on values (`StartSpec`, `StopSpec`). It also holds the laws over any sequence of calls: the state only moves forward, the worker runs exactly when the state is STARTED, a shut-down manager never changes again, and there is at most one initialisation and at most one teardown.
- `contents.dfy` holds the membership record and its encoding.
- `membership.dfy` holds the event decision (`SkipAgent`, `JobFor`) and its effect on the job slots and the registry (`Apply`, `Replay`). Its lemmas prove coalescing: the slot of a channel holds the job of that channel's last qualifying event. They also prove that the registry always agrees with those jobs.
- `cluster_manager.dfy` holds the classes: the manager and its three collaborators. Each has the fields the manager reads or updates in place. The methods are proved against the functions above.

Modelling choices:

- **Races.** A compare-and-set that another thread wins first is modelled by a `lostRace` argument. On a lost race the transition fails, and from the losing caller's point of view nothing changes. `changeStateStarted` and `changeStateStoped` are only called by the winner of the step before, so they cannot lose.
- **`WorkerStateContext`** is not part of this model. Each of its `changeState…` operations is taken to try exactly one edge of the forward order: NEW to INITIALIZING, INITIALIZING to STARTED, STARTED to DESTROYING, DESTROYING to STOPPED. As a result, `stop()` on a manager that never started is a no-op, and that manager can still be started afterwards. If stop could move any state to DESTROYING, a manager could never be restarted after any stop attempt. Here, only a stop that won its transition makes the manager final (`ShutDownIsFinal`).
- **Jackson's `ObjectMapper`** is a parameter: a pair of functions `write` and `read` that may fail, where `None` stands for the exception. `read` gives whatever JSON object the bytes hold, as a map from strings to JSON values. `Lawful` states the one thing the manager relies on: reading back what was written gives the record as the map `{agent: <properties as a JSON object>, state: <state name>}`.
- **Channel identity.** The job slots, the worker's cache and the registry are keyed by the channel context's identity (`ChannelId`), as the Java objects are. The properties of a channel are read again on every event, so two events on one socket may carry different properties and still reach the same slot.
- **Other collaborators.** `MapUtils.getString`, `AgentPropertiesType` and `PinpointServerSocketStateCode` are not part of this model.
  - `getString` is taken to return the value when it is a string and null otherwise.
  - The property names are `applicationName` and `agentId`.
  - The state codes are grouped into the duplex-ready state, the terminal states (those for which `isFinished` holds) and the rest.

## Model

| member | source | states |
|---|---|---|
| Channels.GetString | collector/src/main/java/com/navercorp/pinpoint/collector/cluster/zookeeper/ZookeeperProfilerClusterManager.java:166-167 | The value under the key is returned exactly when the key is present and holds a string; absent keys and non-string values read as null |
| Channels.Name | collector/src/main/java/com/navercorp/pinpoint/collector/cluster/zookeeper/ZookeeperProfilerClusterManager.java:179 | The duplex-ready state is named RUN_DUPLEX_COMMUNICATION; every other state by its own enum name |
| Channels.IsFinished | collector/src/main/java/com/navercorp/pinpoint/collector/cluster/zookeeper/ZookeeperProfilerClusterManager.java:128 | Finished exactly for the terminal states, so never for the duplex-ready state |
| Membership.SkipAgent | collector/src/main/java/com/navercorp/pinpoint/collector/cluster/zookeeper/ZookeeperProfilerClusterManager.java:165-174 | An agent is kept exactly when both its application name and its agent id are non-empty strings; otherwise it is skipped |
| Membership.IsEmpty | collector/src/main/java/com/navercorp/pinpoint/collector/cluster/zookeeper/ZookeeperProfilerClusterManager.java:169 | A value counts as empty exactly when it is null or the empty string |
| Contents.SerializeContents | collector/src/main/java/com/navercorp/pinpoint/collector/cluster/zookeeper/ZookeeperProfilerClusterManager.java:176-188 | May fail; when it succeeds, the contents read back as the record with agent = the properties and state = the state code's name |
| Contents.DeserializeContents | collector/src/main/java/com/navercorp/pinpoint/collector/cluster/zookeeper/ZookeeperProfilerClusterManager.java:190-198 | The map Jackson reads from the contents, whatever JSON object they hold; the empty map when reading fails |
| Contents.ContentsRoundTrip | collector/src/main/java/com/navercorp/pinpoint/collector/cluster/zookeeper/ZookeeperProfilerClusterManager.java:176-198 | Serialising then deserialising gives the map {agent: the properties as a JSON object, state: the state name} |
| Membership.JobFor | collector/src/main/java/com/navercorp/pinpoint/collector/cluster/zookeeper/ZookeeperProfilerClusterManager.java:113-133 | A skipped agent gets no job; a delete exactly for a kept agent in a finished state; an update exactly for a kept agent in RUN_DUPLEX_COMMUNICATION whose serialisation succeeded, and its contents read back as {agent: properties, state: RUN_DUPLEX_COMMUNICATION} |
| Membership.Apply | collector/src/main/java/com/navercorp/pinpoint/collector/cluster/zookeeper/ZookeeperProfilerClusterManager.java:118-133 | Other channels' job slots and registration never change; with no job nothing changes; otherwise the channel's slot becomes the job and the channel is registered exactly when the job is an update |
| Membership.ReplayKeepsLatestJob | collector/src/main/java/com/navercorp/pinpoint/collector/cluster/zookeeper/ZookeeperProfilerClusterManager.java:118-133 | After any sequence of events, a channel's slot holds the job of its last qualifying event (older ones are superseded) and it is registered exactly when that job is an update; a channel with no qualifying event is unchanged |
| Membership.ApplyKeepsConsistent | collector/src/main/java/com/navercorp/pinpoint/collector/cluster/zookeeper/ZookeeperProfilerClusterManager.java:118-133 | One event keeps every channel with a job registered exactly when its job is an update |
| Membership.ReplayKeepsConsistent | collector/src/main/java/com/navercorp/pinpoint/collector/cluster/zookeeper/ZookeeperProfilerClusterManager.java:118-133 | Any sequence of events keeps the registry in agreement with the job slots |
| Membership.RegisterThenUnregister | collector/src/main/java/com/navercorp/pinpoint/collector/cluster/zookeeper/ZookeeperProfilerClusterManager.java:118-133 | Duplex-ready then finished on one socket: first registered with an update that reads back as {agent: properties, state: RUN_DUPLEX_COMMUNICATION}, then unregistered with a delete, even when the second event reads different properties |
| Lifecycle.StartSpec | collector/src/main/java/com/navercorp/pinpoint/collector/cluster/zookeeper/ZookeeperProfilerClusterManager.java:55-83 | start fails exactly in DESTROYING, STOPPED or ILLEGAL_STATE; it changes something only from NEW when it wins the race, and then the worker runs and the state is STARTED; a lost race or INITIALIZING/STARTED changes nothing |
| Lifecycle.StopSpec | collector/src/main/java/com/navercorp/pinpoint/collector/cluster/zookeeper/ZookeeperProfilerClusterManager.java:85-104 | stop changes something only from STARTED when it wins the race, and then the state is STOPPED and the worker is stopped; otherwise nothing changes and it never fails |
| Lifecycle.RunIsMonotone | collector/src/main/java/com/navercorp/pinpoint/collector/cluster/zookeeper/ZookeeperProfilerClusterManager.java:55-104 | No sequence of start and stop calls moves the state backwards |
| Lifecycle.RunKeepsCoherent | collector/src/main/java/com/navercorp/pinpoint/collector/cluster/zookeeper/ZookeeperProfilerClusterManager.java:55-104 | Starting from a coherent lifecycle, no sequence of calls leaves the worker running unless the state is STARTED, nor STARTED with the worker stopped |
| Lifecycle.ShutDownIsFinal | collector/src/main/java/com/navercorp/pinpoint/collector/cluster/zookeeper/ZookeeperProfilerClusterManager.java:76-91 | From DESTROYING, STOPPED or ILLEGAL_STATE no sequence of calls changes the lifecycle |
| Lifecycle.InitializesAtMostOnce | collector/src/main/java/com/navercorp/pinpoint/collector/cluster/zookeeper/ZookeeperProfilerClusterManager.java:56-72 | Over any sequence of racing calls the worker is started at most once, and never unless the state was NEW |
| Lifecycle.TearsDownAtMostOnce | collector/src/main/java/com/navercorp/pinpoint/collector/cluster/zookeeper/ZookeeperProfilerClusterManager.java:85-104 | Over any sequence of racing calls the worker is stopped at most once, and never from a shut-down state |
| ClusterManager.WorkerStateContext.constructor | collector/src/main/java/com/navercorp/pinpoint/collector/cluster/zookeeper/ZookeeperProfilerClusterManager.java:48 | A new lifecycle cell is NEW |
| ClusterManager.WorkerStateContext.IsStarted | collector/src/main/java/com/navercorp/pinpoint/collector/cluster/zookeeper/ZookeeperProfilerClusterManager.java:108 | True exactly when the lifecycle cell is STARTED |
| ClusterManager.WorkerStateContext.ChangeStateInitializing | collector/src/main/java/com/navercorp/pinpoint/collector/cluster/zookeeper/ZookeeperProfilerClusterManager.java:58 | Succeeds exactly from NEW on a race that is not lost, and then the state is INITIALIZING; otherwise the state is unchanged |
| ClusterManager.WorkerStateContext.ChangeStateStarted | collector/src/main/java/com/navercorp/pinpoint/collector/cluster/zookeeper/ZookeeperProfilerClusterManager.java:65 | Succeeds exactly from INITIALIZING, and then the state is STARTED |
| ClusterManager.WorkerStateContext.ChangeStateDestroying | collector/src/main/java/com/navercorp/pinpoint/collector/cluster/zookeeper/ZookeeperProfilerClusterManager.java:86 | Succeeds exactly from STARTED on a race that is not lost, and then the state is DESTROYING; otherwise the state is unchanged |
| ClusterManager.WorkerStateContext.ChangeStateStopped | collector/src/main/java/com/navercorp/pinpoint/collector/cluster/zookeeper/ZookeeperProfilerClusterManager.java:99 | Succeeds exactly from DESTROYING, and then the state is STOPPED |
| ClusterManager.ZookeeperLatestJobWorker.constructor | collector/src/main/java/com/navercorp/pinpoint/collector/cluster/zookeeper/ZookeeperProfilerClusterManager.java:52 | A new worker is not running, with no job slots and an empty cache |
| ClusterManager.ZookeeperLatestJobWorker.Start | collector/src/main/java/com/navercorp/pinpoint/collector/cluster/zookeeper/ZookeeperProfilerClusterManager.java:61-63 | The worker runs |
| ClusterManager.ZookeeperLatestJobWorker.Stop | collector/src/main/java/com/navercorp/pinpoint/collector/cluster/zookeeper/ZookeeperProfilerClusterManager.java:95-97 | The worker no longer runs |
| ClusterManager.ZookeeperLatestJobWorker.PutJob | collector/src/main/java/com/navercorp/pinpoint/collector/cluster/zookeeper/ZookeeperProfilerClusterManager.java:124-130 | The channel's slot becomes the new job and every other slot is kept |
| ClusterManager.ZookeeperLatestJobWorker.GetData | collector/src/main/java/com/navercorp/pinpoint/collector/cluster/zookeeper/ZookeeperProfilerClusterManager.java:143 | The cached contents of the channel, null exactly when the cache has none |
| ClusterManager.ProfilerClusterPoint.constructor | collector/src/main/java/com/navercorp/pinpoint/collector/cluster/zookeeper/ZookeeperProfilerClusterManager.java:47-49 | The registry starts with the channels it is given |
| ClusterManager.ProfilerClusterPoint.RegisterChannelContext | collector/src/main/java/com/navercorp/pinpoint/collector/cluster/zookeeper/ZookeeperProfilerClusterManager.java:127 | The channel is added and nothing else changes |
| ClusterManager.ProfilerClusterPoint.UnregisterChannelContext | collector/src/main/java/com/navercorp/pinpoint/collector/cluster/zookeeper/ZookeeperProfilerClusterManager.java:132 | The channel is removed and nothing else changes |
| ClusterManager.ZookeeperProfilerClusterManager.constructor | collector/src/main/java/com/navercorp/pinpoint/collector/cluster/zookeeper/ZookeeperProfilerClusterManager.java:47-53 | A new manager is NEW, its worker is fresh and stopped with no jobs, and it uses the given registry |
| ClusterManager.ZookeeperProfilerClusterManager.Start | collector/src/main/java/com/navercorp/pinpoint/collector/cluster/zookeeper/ZookeeperProfilerClusterManager.java:55-83 | The new lifecycle and the outcome are those of StartSpec on the old lifecycle; jobs and registry are untouched |
| ClusterManager.ZookeeperProfilerClusterManager.Stop | collector/src/main/java/com/navercorp/pinpoint/collector/cluster/zookeeper/ZookeeperProfilerClusterManager.java:85-104 | The new lifecycle is that of StopSpec on the old one; jobs and registry are untouched |
| ClusterManager.ZookeeperProfilerClusterManager.EventPerformed | collector/src/main/java/com/navercorp/pinpoint/collector/cluster/zookeeper/ZookeeperProfilerClusterManager.java:107-140 | When not STARTED, jobs and registry are unchanged; when STARTED, they become Apply of the old ones; the lifecycle and the worker's running flag and cache are untouched |
| ClusterManager.ZookeeperProfilerClusterManager.GetData | collector/src/main/java/com/navercorp/pinpoint/collector/cluster/zookeeper/ZookeeperProfilerClusterManager.java:142-150 | Empty when the worker has no contents for the channel or they cannot be read; otherwise exactly the map read from the cached contents |
| ClusterManager.GetDataAfterRegistration | collector/src/main/java/com/navercorp/pinpoint/collector/cluster/zookeeper/ZookeeperProfilerClusterManager.java:142-150 | Once the worker has applied the update the manager put for a duplex-ready socket, getData returns {agent: its properties, state: RUN_DUPLEX_COMMUNICATION}; with nothing applied, the empty map |

## Left out

- `getChildrenNode` (lines 152-159) is left out because it is only ZooKeeper client I/O. Its shape is: create the path if it is missing, then list its children.
- `getRegisteredChannelContextList` (lines 161-163) is left out because it only delegates to the worker's own view of tracked channels, and the worker's internals are not part of this model.
- The worker's processing loop is not modelled: coalesced commits, ZooKeeper writes and deletes, and the updates to its read cache. The manager never writes that cache, so `GetData` is stated for whatever the cache holds.
- What `getData` returns after an unregister depends on that loop, so it is not stated.
- Thread safety and the atomic compare-and-set are replaced by the `lostRace` argument. The worker's background thread and its `join` in `stop()` are not modelled.
- The `worker != null` checks (lines 61 and 95) are not modelled: the constructor always creates the worker, so the null branch cannot be taken.
- Jackson's encoding is not modelled; see the `ObjectMapper` parameter above.
- Logging is not modelled.
