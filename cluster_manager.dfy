/**
 * `ZookeeperProfilerClusterManager` and the three collaborators it holds,
 * each reduced to the state the manager reads or changes: the lifecycle
 * cell, the worker's running flag, job slots and read cache, and the
 * cluster point's set of registered channels. Every method is proved
 * against the value-level specification in `Lifecycle` and `Membership`.
 */
module ClusterManager {
  import opened Wrappers
  import opened Channels
  import opened Lifecycle
  import opened Contents
  import opened Membership

  /** The lifecycle cell, changed only by compare-and-set transitions. */
  class WorkerStateContext {
    var state: WorkerState

    constructor()
      ensures state == New
    {
      state := New;
    }

    function IsStarted(): (started: bool)
      reads this
      ensures started <==> state == Started
    {
      state == Started
    }

    /** NEW -> INITIALIZING; fails when the state is not NEW or another caller wins the race. */
    method ChangeStateInitializing(lostRace: bool) returns (ok: bool)
      modifies this
      ensures ok <==> old(state) == New && !lostRace
      ensures state == if ok then Initializing else old(state)
    {
      ok := state == New && !lostRace;
      if ok {
        state := Initializing;
      }
    }

    /** INITIALIZING -> STARTED; only the winner of NEW -> INITIALIZING calls it, so no race is lost here. */
    method ChangeStateStarted() returns (ok: bool)
      modifies this
      ensures ok <==> old(state) == Initializing
      ensures state == if ok then Started else old(state)
    {
      ok := state == Initializing;
      if ok {
        state := Started;
      }
    }

    /** STARTED -> DESTROYING; fails when the state is not STARTED or another caller wins the race. */
    method ChangeStateDestroying(lostRace: bool) returns (ok: bool)
      modifies this
      ensures ok <==> old(state) == Started && !lostRace
      ensures state == if ok then Destroying else old(state)
    {
      ok := state == Started && !lostRace;
      if ok {
        state := Destroying;
      }
    }

    /** DESTROYING -> STOPPED; only the winner of STARTED -> DESTROYING calls it. */
    method ChangeStateStopped() returns (ok: bool)
      modifies this
      ensures ok <==> old(state) == Destroying
      ensures state == if ok then Stopped else old(state)
    {
      ok := state == Destroying;
      if ok {
        state := Stopped;
      }
    }
  }

  /**
   * The job worker as the manager sees it: whether it runs, the last job put
   * for each channel, and the contents it last applied per channel (its read
   * cache, which only its own processing loop writes).
   */
  class ZookeeperLatestJobWorker {
    var running: bool
    var lastJob: map<ChannelId, Job>
    var applied: map<ChannelId, Bytes>

    constructor()
      ensures !running && lastJob == map[] && applied == map[]
    {
      running := false;
      lastJob := map[];
      applied := map[];
    }

    method Start()
      modifies this`running
      ensures running
    {
      running := true;
    }

    method Stop()
      modifies this`running
      ensures !running
    {
      running := false;
    }

    /** A new job for a channel replaces the one pending for it; other channels keep theirs. */
    method PutJob(ctx: ChannelContext, job: Job)
      modifies this`lastJob
      ensures lastJob == old(lastJob)[ctx.id := job]
    {
      lastJob := lastJob[ctx.id := job];
    }

    /** The cached contents for the channel, null (`None`) when there are none. */
    function GetData(ctx: ChannelContext): (r: Option<Bytes>)
      reads this
      ensures r.Some? <==> ctx.id in applied
      ensures r.Some? ==> r.value == applied[ctx.id]
    {
      if ctx.id in applied then Some(applied[ctx.id]) else None
    }
  }

  /** The local registry of channels this collector has registered. */
  class ProfilerClusterPoint {
    var channels: set<ChannelId>

    constructor(initial: set<ChannelId>)
      ensures channels == initial
    {
      channels := initial;
    }

    method RegisterChannelContext(ctx: ChannelContext)
      modifies this
      ensures channels == old(channels) + {ctx.id}
    {
      channels := channels + {ctx.id};
    }

    method UnregisterChannelContext(ctx: ChannelContext)
      modifies this
      ensures channels == old(channels) - {ctx.id}
    {
      channels := channels - {ctx.id};
    }
  }

  class ZookeeperProfilerClusterManager {
    const worker: ZookeeperLatestJobWorker
    const workerState: WorkerStateContext
    const clusterPoint: ProfilerClusterPoint
    const mapper: ObjectMapper

    /** The lifecycle as `start()` and `stop()` see it. */
    function Current(): Lifecycle
      reads workerState, worker
    {
      Lifecycle(workerState.state, worker.running)
    }

    /** The job slots and registry as `eventPerformed` changes them. */
    function Snap(): Snapshot
      reads worker, clusterPoint
    {
      Snapshot(worker.lastJob, clusterPoint.channels)
    }

    constructor(clusterPoint: ProfilerClusterPoint, mapper: ObjectMapper)
      ensures this.clusterPoint == clusterPoint && this.mapper == mapper
      ensures fresh(worker) && fresh(workerState)
      ensures Current() == Lifecycle(New, false) && Coherent(Current())
      ensures worker.lastJob == map[] && worker.applied == map[] && Consistent(Snap())
    {
      this.workerState := new WorkerStateContext();
      this.clusterPoint := clusterPoint;
      this.worker := new ZookeeperLatestJobWorker();
      this.mapper := mapper;
    }

    /** `start()`; `Fail` stands for the `IllegalStateException` it throws. */
    method Start(lostRace: bool) returns (r: Outcome)
      modifies workerState, worker`running
      ensures StartSpec(old(Current()), lostRace) == StartResult(Current(), r)
    {
      var current := workerState.state;
      if current == New {
        var won := workerState.ChangeStateInitializing(lostRace);
        if won {
          worker.Start();
          var started := workerState.ChangeStateStarted();
          return Pass;
        }
        // The race was lost: fall through to "already initializing".
        return Pass;
      } else if current == Initializing || current == Started {
        return Pass;
      } else if current == Destroying {
        return Fail(AlreadyDestroying);
      } else if current == Stopped {
        return Fail(AlreadyStopped);
      } else {
        return Fail(InvalidState);
      }
    }

    /** `stop()`: never fails; only the caller that wins the move to DESTROYING stops the worker. */
    method Stop(lostRace: bool)
      modifies workerState, worker`running
      ensures Current() == StopSpec(old(Current()), lostRace)
    {
      var won := workerState.ChangeStateDestroying(lostRace);
      if !won {
        return;
      }
      worker.Stop();
      var stopped := workerState.ChangeStateStopped();
    }

    /** `eventPerformed`: events arriving while not STARTED are dropped. */
    method EventPerformed(ctx: ChannelContext, code: SocketStateCode)
      modifies worker`lastJob, clusterPoint
      ensures Snap() == if old(workerState.state) == Started then Apply(mapper, old(Snap()), Event(ctx, code)) else old(Snap())
    {
      if workerState.IsStarted() {
        var agentProperties := ctx.properties;
        if SkipAgent(agentProperties) {
          return;
        }
        if code == RunDuplexCommunication {
          var contents := SerializeContents(mapper, agentProperties, code);
          if contents.None? {
            return;
          }
          worker.PutJob(ctx, UpdateJob(contents.value));
          clusterPoint.RegisterChannelContext(ctx);
        } else if IsFinished(code) {
          worker.PutJob(ctx, DeleteJob);
          clusterPoint.UnregisterChannelContext(ctx);
        }
      }
    }

    /** `getData`: the channel's record as a map; empty when the worker has none or it cannot be read. */
    function GetData(ctx: ChannelContext): (m: map<string, Json>)
      reads worker
      ensures ctx.id !in worker.applied ==> m == map[]
      ensures ctx.id in worker.applied && mapper.read(worker.applied[ctx.id]).None? ==> m == map[]
      ensures ctx.id in worker.applied && mapper.read(worker.applied[ctx.id]).Some? ==>
        m == mapper.read(worker.applied[ctx.id]).value
    {
      match worker.GetData(ctx)
      case None => map[]
      case Some(contents) => DeserializeContents(mapper, contents)
    }
  }

  /**
   * Once the worker has applied the update the manager put for a
   * duplex-ready socket, `getData` returns `{agent: its properties, state:
   * "RUN_DUPLEX_COMMUNICATION"}`; before the worker has applied anything for
   * it, the empty map.
   */
  lemma GetDataAfterRegistration(manager: ZookeeperProfilerClusterManager, ctx: ChannelContext)
    requires Lawful(manager.mapper)
    requires JobFor(manager.mapper, ctx.properties, RunDuplexCommunication).Some?
    ensures ctx.id !in manager.worker.applied ==> manager.GetData(ctx) == map[]
    ensures (ctx.id in manager.worker.applied &&
             manager.worker.applied[ctx.id] == JobFor(manager.mapper, ctx.properties, RunDuplexCommunication).value.contents)
      ==> manager.GetData(ctx) == AsMap(Document(ctx.properties, "RUN_DUPLEX_COMMUNICATION"))
  {
  }
}
