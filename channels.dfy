/**
 * What the transport layer hands the cluster manager with each socket event:
 * the channel, the agent properties it carries and the socket state code.
 */
module Channels {
  import opened Wrappers

  /** A value of the agent-properties map; the agent sends strings, numbers and flags. */
  datatype PropValue = Text(s: string) | Number(n: int) | Flag(b: bool)

  /** The agent-properties map of a channel (`getChannelProperties()`). */
  type Properties = map<string, PropValue>

  /** The serialised membership record, as the object mapper writes it. */
  type Bytes = seq<bv8>

  /** The object identity of a channel context: job slots and the registry are keyed by it. */
  type ChannelId = nat

  /**
   * One agent socket as an event presents it: its identity and the
   * properties read from it for this event. The properties are read afresh
   * on every event, so two events on one socket may carry different ones.
   */
  datatype ChannelContext = ChannelContext(id: ChannelId, properties: Properties)

  /**
   * The socket state codes, grouped the way the manager distinguishes them:
   * the duplex-ready state, the terminal states (for which
   * `PinpointServerSocketStateCode.isFinished` holds) and all the others.
   */
  datatype SocketStateCode =
    | RunDuplexCommunication
    | Terminal(name: string)
    | Transient(name: string)

  /** The enum constant's `name()`. */
  function Name(code: SocketStateCode): (name: string)
    ensures code.RunDuplexCommunication? ==> name == "RUN_DUPLEX_COMMUNICATION"
    ensures !code.RunDuplexCommunication? ==> name == code.name
  {
    match code
    case RunDuplexCommunication => "RUN_DUPLEX_COMMUNICATION"
    case Terminal(n) => n
    case Transient(n) => n
  }

  /** `PinpointServerSocketStateCode.isFinished`; the duplex-ready state is never finished. */
  function IsFinished(code: SocketStateCode): (finished: bool)
    ensures finished ==> code != RunDuplexCommunication
    ensures finished <==> code.Terminal?
  {
    code.Terminal?
  }

  /** The property names `AgentPropertiesType.APPLICATION_NAME` and `AGENT_ID`. */
  const ApplicationNameKey := "applicationName"
  const AgentIdKey := "agentId"

  /**
   * `MapUtils.getString`: the value under `key` when it is a string, null
   * (here `None`) when the key is absent or holds a value of another type.
   */
  function GetString(props: Properties, key: string): (r: Option<string>)
    ensures r.Some? <==> key in props && props[key].Text?
    ensures r.Some? ==> props[key] == Text(r.value)
  {
    if key in props then
      match props[key]
      case Text(s) => Some(s)
      case _ => None
    else
      None
  }
}
