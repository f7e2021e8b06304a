/**
 * What the driver and the message classes see of a command class instance:
 * its identity, its addressing, what response it expects, whether it is one
 * part of a partial session, and the command it encapsulates. The class
 * hierarchy itself and the per-class serializers are not part of this module;
 * `body` stands for whatever the command serializes to.
 */
module CommandClasses {
  import opened Wrappers
  import opened Bytes

  /** A singlecast (or broadcast) command has one node id, a multicast command several. */
  datatype Target = Singlecast(nodeId: nat) | Multicast(nodeIds: seq<nat>)

  /** The command's expected response: none, always instances of one class, or its own test. */
  datatype Expected = NoResponse | Fixed(responseClass: nat) | Custom

  /** An encapsulating command holds one command, a multi-command container several. */
  datatype Encapsulation = Plain | Single(inner: CC) | Multiple(inners: seq<CC>)

  datatype CC = CC(
    ccId: nat,
    ccCommand: Option<nat>,
    cls: nat,
    target: Target,
    body: seq<Byte>,
    expected: Expected,
    sessionId: Option<string>,
    expectMore: bool,
    encapsulation: Encapsulation)

  predicate IsEncapsulating(c: CC) {
    c.encapsulation.Single?
  }

  /** The wrappers the driver may add, from the inside out. */
  datatype Layer = SupervisionLayer | MultiChannelLayer | SecurityLayer

  /** The command class ids of the wrappers. */
  function LayerCcId(l: Layer): nat {
    match l
    case SupervisionLayer => 0x6c
    case MultiChannelLayer => 0x60
    case SecurityLayer => 0x98
  }

  /** The command class ids from the outermost command down to the innermost single command. */
  function Layers(c: CC): (r: seq<nat>)
    ensures |r| >= 1 && r[0] == c.ccId
  {
    match c.encapsulation
    case Single(inner) => [c.ccId] + Layers(inner)
    case _ => [c.ccId]
  }

  /**
   * The command reached by unwrapping single encapsulations; a multi-command
   * container is where unwrapping stops.
   */
  function Core(c: CC): (r: CC)
    ensures !IsEncapsulating(r)
  {
    match c.encapsulation
    case Single(inner) => Core(inner)
    case _ => c
  }
}
