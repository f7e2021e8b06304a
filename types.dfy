/** Node-level enumerations and constants shared by the driver and the nodes. */
module NodeTypes {
  /** The broadcast target node id. */
  const NODE_ID_BROADCAST: nat := 0xff
  /**
   * The highest allowed node id. The node bit mask that defines it is not part
   * of this model; 232 is the Z-Wave classic node id limit.
   */
  const MAX_NODES: nat := 232
  const NODE_ID_MAX: nat := MAX_NODES

  /** The interview stages, in the order in which a node passes through them. */
  datatype InterviewStage =
    | None
    | ProtocolInfo
    | NodeInfo
    | Security
    | RestartFromCache
    | CommandClasses
    | OverwriteConfig
    | Neighbors
    | Complete

  /** The numeric value of the enum member (its position in the declaration). */
  function StageIndex(s: InterviewStage): (r: nat)
    ensures r <= 8
  {
    match s
    case None => 0
    case ProtocolInfo => 1
    case NodeInfo => 2
    case Security => 3
    case RestartFromCache => 4
    case CommandClasses => 5
    case OverwriteConfig => 6
    case Neighbors => 7
    case Complete => 8
  }

  predicate StageAtLeast(a: InterviewStage, b: InterviewStage) {
    StageIndex(a) >= StageIndex(b)
  }

  /**
   * The stage as the node cache stores it: RestartFromCache and every later
   * stage are stored as Complete, so that they are redone on the next start.
   */
  function CachedStage(s: InterviewStage): (r: InterviewStage)
    ensures StageAtLeast(s, RestartFromCache) <==> r == Complete
    ensures !StageAtLeast(s, RestartFromCache) ==> r == s
  {
    if StageIndex(s) >= StageIndex(RestartFromCache) then Complete else s
  }

  datatype NodeStatus = Unknown | Asleep | Awake | Dead
}
