/**
 * The manager's decision for one socket event while STARTED (register,
 * unregister or skip) and its effect on the two structures it updates: the
 * worker's job slot per channel and the cluster point's set of registered
 * channels. `Replay` runs a sequence of events; its lemmas say that each
 * channel's slot holds the job of the last event that produced one for it,
 * and that the registry agrees with that job.
 */
module Membership {
  import opened Wrappers
  import opened Channels
  import opened Contents

  /** `UpdateJob` and `DeleteJob`; the channel they are for is the key of the slot. */
  datatype Job = UpdateJob(contents: Bytes) | DeleteJob

  /** `StringUtils.isEmpty`: null or the empty string. */
  function IsEmpty(s: Option<string>): (empty: bool)
    ensures !empty <==> s.Some? && |s.value| > 0
  {
    s.None? || s.value == ""
  }

  /** The property holds a non-empty string. */
  ghost predicate HasText(props: Properties, key: string)
  {
    key in props && props[key].Text? && props[key].s != ""
  }

  /** `skipAgent`: an agent is skipped unless both its application name and its agent id are non-empty strings. */
  function SkipAgent(props: Properties): (skip: bool)
    ensures !skip <==> HasText(props, ApplicationNameKey) && HasText(props, AgentIdKey)
  {
    var applicationName := GetString(props, ApplicationNameKey);
    var agentId := GetString(props, AgentIdKey);
    IsEmpty(applicationName) || IsEmpty(agentId)
  }

  /**
   * The job a STARTED manager puts for an event on a channel with these
   * properties, or `None` when it skips the event.
   */
  function JobFor(mapper: ObjectMapper, props: Properties, code: SocketStateCode): (job: Option<Job>)
    ensures job.Some? ==> !SkipAgent(props)
    ensures job == Some(DeleteJob) <==> !SkipAgent(props) && IsFinished(code)
    ensures (job.Some? && job.value.UpdateJob?) <==>
      !SkipAgent(props) && code == RunDuplexCommunication && SerializeContents(mapper, props, code).Some?
    ensures Lawful(mapper) && job.Some? && job.value.UpdateJob? ==>
      mapper.read(job.value.contents) == Some(AsMap(Document(props, "RUN_DUPLEX_COMMUNICATION")))
  {
    if SkipAgent(props) then None
    else if code == RunDuplexCommunication then
      match SerializeContents(mapper, props, code)
      case None => None
      case Some(contents) => Some(UpdateJob(contents))
    else if IsFinished(code) then Some(DeleteJob)
    else None
  }

  /** One socket state-change event. */
  datatype Event = Event(ctx: ChannelContext, code: SocketStateCode)

  /** The worker's last job per channel and the cluster point's registered channels, keyed by channel identity. */
  datatype Snapshot = Snapshot(lastJob: map<ChannelId, Job>, registered: set<ChannelId>)

  /** What a snapshot says about one channel. */
  datatype ChannelView = ChannelView(job: Option<Job>, registered: bool)

  function View(s: Snapshot, c: ChannelId): ChannelView
  {
    ChannelView(if c in s.lastJob then Some(s.lastJob[c]) else None, c in s.registered)
  }

  /** Every channel that has a job is registered exactly when that job is an update. */
  ghost predicate Consistent(s: Snapshot)
  {
    forall c :: c in s.lastJob ==> (c in s.registered <==> s.lastJob[c].UpdateJob?)
  }

  /** The effect of `eventPerformed` on a STARTED manager. */
  function Apply(mapper: ObjectMapper, s: Snapshot, e: Event): (r: Snapshot)
    ensures forall c :: c != e.ctx.id ==> View(r, c) == View(s, c)
    ensures JobFor(mapper, e.ctx.properties, e.code).None? ==> r == s
    ensures JobFor(mapper, e.ctx.properties, e.code).Some? ==>
      View(r, e.ctx.id) == ChannelView(JobFor(mapper, e.ctx.properties, e.code),
                                    JobFor(mapper, e.ctx.properties, e.code).value.UpdateJob?)
  {
    match JobFor(mapper, e.ctx.properties, e.code)
    case None => s
    case Some(job) =>
      Snapshot(s.lastJob[e.ctx.id := job],
               if job.UpdateJob? then s.registered + {e.ctx.id} else s.registered - {e.ctx.id})
  }

  /** A STARTED manager receiving the events in order. */
  function Replay(mapper: ObjectMapper, s: Snapshot, events: seq<Event>): Snapshot
    decreases |events|
  {
    if events == [] then s
    else Apply(mapper, Replay(mapper, s, events[..|events| - 1]), events[|events| - 1])
  }

  /** The job of the last event for `c` that produced one, if any. */
  function LastJob(mapper: ObjectMapper, events: seq<Event>, c: ChannelId): Option<Job>
    decreases |events|
  {
    if events == [] then None
    else
      var e := events[|events| - 1];
      if e.ctx.id == c && JobFor(mapper, e.ctx.properties, e.code).Some? then JobFor(mapper, e.ctx.properties, e.code)
      else LastJob(mapper, events[..|events| - 1], c)
  }

  /**
   * Coalescing: after any sequence of events, a channel's slot holds the job
   * of its last qualifying event and it is registered exactly when that job
   * is an update; a channel with no qualifying event is as it was.
   */
  lemma {:induction false} ReplayKeepsLatestJob(mapper: ObjectMapper, s: Snapshot, events: seq<Event>, c: ChannelId)
    ensures View(Replay(mapper, s, events), c) ==
      match LastJob(mapper, events, c)
      case None => View(s, c)
      case Some(job) => ChannelView(Some(job), job.UpdateJob?)
    decreases |events|
  {
    if events != [] {
      ReplayKeepsLatestJob(mapper, s, events[..|events| - 1], c);
    }
  }

  /** One event keeps the registry in agreement with the job slots. */
  lemma ApplyKeepsConsistent(mapper: ObjectMapper, s: Snapshot, e: Event)
    requires Consistent(s)
    ensures Consistent(Apply(mapper, s, e))
  {
  }

  /** Any sequence of events keeps the registry in agreement with the job slots. */
  lemma {:induction false} ReplayKeepsConsistent(mapper: ObjectMapper, s: Snapshot, events: seq<Event>)
    requires Consistent(s)
    ensures Consistent(Replay(mapper, s, events))
    decreases |events|
  {
    if events != [] {
      ReplayKeepsConsistent(mapper, s, events[..|events| - 1]);
      ApplyKeepsConsistent(mapper, Replay(mapper, s, events[..|events| - 1]), events[|events| - 1]);
    }
  }

  /**
   * Register then unregister one socket: after the duplex-ready event its
   * slot holds an update whose contents read back as `{agent: props, state:
   * "RUN_DUPLEX_COMMUNICATION"}` and it is registered; after a terminal event
   * on the same socket, whatever properties that event reads, its slot holds
   * a delete and it is no longer registered.
   */
  lemma RegisterThenUnregister(mapper: ObjectMapper, s: Snapshot, ctx: ChannelContext, later: ChannelContext, terminal: string)
    requires Lawful(mapper)
    requires !SkipAgent(ctx.properties) && !SkipAgent(later.properties)
    requires later.id == ctx.id
    requires SerializeContents(mapper, ctx.properties, RunDuplexCommunication).Some?
    ensures var s1 := Apply(mapper, s, Event(ctx, RunDuplexCommunication));
      ctx.id in s1.registered && ctx.id in s1.lastJob && s1.lastJob[ctx.id].UpdateJob? &&
      DeserializeContents(mapper, s1.lastJob[ctx.id].contents)
        == AsMap(Document(ctx.properties, "RUN_DUPLEX_COMMUNICATION"))
    ensures var s2 := Apply(mapper, Apply(mapper, s, Event(ctx, RunDuplexCommunication)), Event(later, Terminal(terminal)));
      ctx.id !in s2.registered && ctx.id in s2.lastJob && s2.lastJob[ctx.id] == DeleteJob
  {
  }
}
