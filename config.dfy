/** The runtime configuration (bot id -> module, enabled flag, group) and the pipeline topology. */
module Config {
  import opened Common

  /** One bot's runtime entry; `enabled` and `group` are optional keys of the JSON object. */
  datatype BotConfig = BotConfig(botModule: string, enabled: Option<bool>, group: Option<string>)

  type Runtime = map<string, BotConfig>

  /** `runtime_configuration[bot_id].get('enabled', True)`. */
  function Enabled(c: BotConfig): (r: bool)
    ensures !r <==> c.enabled == Some(false)
  {
    match c.enabled
    case Some(b) => b
    case None => true
  }

  /** The value of one named path of a destination map: a single queue or a list of queues. */
  datatype Route = OneQueue(name: string) | QueueList(names: seq<string>)

  /** `destination-queues`: either a flat list or a map from path names such as "_default". */
  datatype Destinations = DestList(names: seq<string>) | DestPaths(paths: map<string, Route>)

  datatype PipeEntry = PipeEntry(source: Option<string>, destinations: Option<Destinations>)

  type Pipeline = map<string, PipeEntry>

  function RouteQueues(r: Route): set<string> {
    match r
    case OneQueue(q) => {q}
    case QueueList(qs) => set q | q in qs
  }

  /**
   * The queue names a destination value mentions: a list becomes its elements, a path
   * map the union of its values.
   */
  function FlattenQueues(d: Destinations): (r: set<string>)
    ensures d.DestList? ==> forall q :: q in r <==> q in d.names
    ensures d.DestPaths? ==> forall q ::
      q in r <==> exists p :: p in d.paths && q in RouteQueues(d.paths[p])
  {
    match d
    case DestList(qs) => set q | q in qs
    case DestPaths(m) => set p, q | p in m && q in RouteQueues(m[p]) :: q
  }
}
