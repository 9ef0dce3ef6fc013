/**
 * The membership record the manager writes for a channel,
 * `{"agent": <properties>, "state": <state name>}`, and its encoding.
 *
 * Jackson's `ObjectMapper` is foreign code: it is a parameter, a pair of
 * functions that may fail. Reading gives whatever JSON object the bytes
 * hold; `Lawful` says what the manager relies on, that reading back what
 * was written gives the record as a map.
 */
module Contents {
  import opened Wrappers
  import opened Channels

  /** The two-entry map built by `serializeContents`. */
  datatype Document = Document(agent: Properties, state: string)

  /** A JSON value as Jackson reads it into Java objects. */
  datatype Json =
    | JString(s: string)
    | JNumber(n: int)
    | JBool(b: bool)
    | JNull
    | JArray(items: seq<Json>)
    | JObject(fields: map<string, Json>)

  /** `writeValueAsBytes` and `readValue(…, Map.class)`; `None` stands for the exception. */
  datatype ObjectMapper = ObjectMapper(write: Document -> Option<Bytes>, read: Bytes -> Option<map<string, Json>>)

  const AgentKey := "agent"
  const StateKey := "state"

  function PropJson(v: PropValue): Json
  {
    match v
    case Text(s) => JString(s)
    case Number(n) => JNumber(n)
    case Flag(b) => JBool(b)
  }

  /** A record as the Java map Jackson reads it into. */
  function AsMap(d: Document): (m: map<string, Json>)
    ensures m.Keys == {AgentKey, StateKey}
    ensures m[StateKey] == JString(d.state)
    ensures m[AgentKey].JObject? && m[AgentKey].fields.Keys == d.agent.Keys
    ensures forall k :: k in d.agent ==> m[AgentKey].fields[k] == PropJson(d.agent[k])
  {
    map[AgentKey := JObject(map k | k in d.agent :: PropJson(d.agent[k])), StateKey := JString(d.state)]
  }

  ghost predicate Lawful(mapper: ObjectMapper)
  {
    forall d :: mapper.write(d).Some? ==> mapper.read(mapper.write(d).value) == Some(AsMap(d))
  }

  /** `serializeContents`: `None` when the mapper throws, and then the event is dropped. */
  function SerializeContents(mapper: ObjectMapper, props: Properties, code: SocketStateCode): (r: Option<Bytes>)
    ensures Lawful(mapper) && r.Some? ==> mapper.read(r.value) == Some(AsMap(Document(props, Name(code))))
  {
    mapper.write(Document(props, Name(code)))
  }

  /** `deserializeContents`: the map Jackson reads, or the empty map when the mapper throws. */
  function DeserializeContents(mapper: ObjectMapper, contents: Bytes): (m: map<string, Json>)
    ensures mapper.read(contents).None? ==> m == map[]
    ensures mapper.read(contents).Some? ==> m == mapper.read(contents).value
  {
    match mapper.read(contents)
    case None => map[]
    case Some(value) => value
  }

  /** What `serializeContents` writes, `deserializeContents` reads back as `{agent: props, state: name}`. */
  lemma ContentsRoundTrip(mapper: ObjectMapper, props: Properties, code: SocketStateCode)
    requires Lawful(mapper)
    ensures SerializeContents(mapper, props, code).Some? ==>
      DeserializeContents(mapper, SerializeContents(mapper, props, code).value) == AsMap(Document(props, Name(code)))
  {
  }
}
