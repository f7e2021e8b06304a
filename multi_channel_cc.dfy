/**
 * The Multi Channel command class: the End Point, Capability, End Point Find
 * and Aggregated Members report parsers, the Get and Find serializers and the
 * two-byte header of a Command Encapsulation.
 *
 * The bit mask codecs (parseBitMask, encodeBitMask) are parameters; the node
 * information frame of a Capability Report and the encapsulated command stay
 * as bytes.
 */
module MultiChannelCC {
  import opened Wrappers
  import opened Bytes

  type BitMaskParser = seq<Byte> -> set<nat>
  type BitMaskEncoder = (set<nat>, nat) -> seq<Byte>

  /** The low seven bits of a number (`n & 0b0111_1111`). */
  function Low7(n: nat): (r: Byte)
    ensures r < 0x80 && r == n % 0x80
  {
    n % 0x80
  }

  /**
   * The bit tests the command class makes on a byte, read arithmetically:
   * `b & 0x7f` is its low seven bits, `b & 0x80` is set from 128 up and
   * `b & 0x40` is set when its low seven bits are 64 or more, and
   * `b | 0x80` is its low seven bits plus 128. The parsers and serializers
   * below use the arithmetic reading.
   */
  lemma BitsOfByte(b: Byte)
    ensures And(b, 0x7f) == Low7(b)
    ensures Flag(b, 0x80) <==> b >= 0x80
    ensures Flag(b, 0x40) <==> Low7(b) >= 0x40
    ensures Or(b, 0x80) == Low7(b) + 0x80
  {
    AndLow7(b);
    FlagHighBit(b);
    FlagBit6(b);
    SetHighBit(b);
  }

  datatype EndPointReport = EndPointReport(
    isDynamicEndpointCount: bool, identicalCapabilities: bool,
    individualEndpointCount: nat, aggregatedEndpointCount: Option<nat>)

  /**
   * The End Point Report constructor: the dynamic and identical flags in
   * bits 7 and 6 of byte 0, the individual count in the low seven bits of
   * byte 1 and, from version 4, the aggregated count in those of byte 2.
   */
  function ParseEndPointReport(payload: seq<Byte>, version: nat): (r: EndPointReport)
    ensures r.isDynamicEndpointCount <==> ByteOr0(payload, 0) >= 0x80
    ensures r.identicalCapabilities <==> ByteOr0(payload, 0) % 0x80 >= 0x40
    ensures r.individualEndpointCount == ByteOr0(payload, 1) % 0x80
    ensures r.aggregatedEndpointCount.Some? <==> version >= 4
    ensures version >= 4 ==> r.aggregatedEndpointCount.value == ByteOr0(payload, 2) % 0x80
  {
    var b0 := ByteOr0(payload, 0);
    EndPointReport(b0 >= 0x80, Low7(b0) >= 0x40, Low7(ByteOr0(payload, 1)),
                   if version >= 4 then Some(Low7(ByteOr0(payload, 2))) else None)
  }

  /** The three bytes a node sends in an End Point Report with counts below 128. */
  function EncodeEndPointReport(r: EndPointReport): (p: seq<Byte>)
    requires r.individualEndpointCount < 0x80
    requires r.aggregatedEndpointCount.Some? ==> r.aggregatedEndpointCount.value < 0x80
    ensures |p| == 3
  {
    [(if r.isDynamicEndpointCount then 0x80 else 0) + (if r.identicalCapabilities then 0x40 else 0),
     r.individualEndpointCount,
     if r.aggregatedEndpointCount.Some? then r.aggregatedEndpointCount.value else 0]
  }

  /** Parsing the bytes of an End Point Report at version 4 gives the report back. */
  lemma EndPointReportRoundTrip(r: EndPointReport)
    requires r.individualEndpointCount < 0x80 && r.aggregatedEndpointCount.Some?
    requires r.aggregatedEndpointCount.value < 0x80
    ensures ParseEndPointReport(EncodeEndPointReport(r), 4) == r
  {
  }

  datatype CapabilityReport = CapabilityReport(endpointIndex: nat, isDynamic: bool, nodeInformationFrame: seq<Byte>)

  /**
   * The Capability Report constructor: the endpoint in the low seven bits
   * of byte 0, the dynamic flag in bit 7, and the node information frame
   * from byte 1 on.
   */
  function ParseCapabilityReport(payload: seq<Byte>): (r: CapabilityReport)
    ensures r.endpointIndex < 0x80 && r.endpointIndex == ByteOr0(payload, 0) % 0x80
    ensures r.isDynamic <==> ByteOr0(payload, 0) >= 0x80
    ensures payload != [] ==> payload == [Low7(r.endpointIndex) + (if r.isDynamic then 0x80 else 0)] + r.nodeInformationFrame
  {
    var b0 := ByteOr0(payload, 0);
    SplitHighBit(b0);
    CapabilityReport(Low7(b0), b0 >= 0x80, Drop(payload, 1))
  }

  /** Capability Get and Aggregated Members Get: one byte, the endpoint's low seven bits. */
  function SerializeEndpointGet(endpoint: nat): (r: seq<Byte>)
    ensures |r| == 1 && r[0] < 0x80 && r[0] == endpoint % 0x80
  {
    [Low7(endpoint)]
  }

  /** A Capability Report about the endpoint a Capability Get asked for names that endpoint. */
  lemma CapabilityAnswersGet(endpoint: nat, dynamic: bool, nif: seq<Byte>)
    requires endpoint < 0x80
    ensures ParseCapabilityReport([SerializeEndpointGet(endpoint)[0] + (if dynamic then 0x80 else 0)] + nif)
            == CapabilityReport(endpoint, dynamic, nif)
  {
  }

  datatype EndPointFindReport = EndPointFindReport(
    genericClass: Option<Byte>, specificClass: Option<Byte>, foundEndpoints: seq<nat>)

  /**
   * The End Point Find Report constructor: byte 0 counts the endpoints,
   * which follow from byte 3, each taken to its low seven bits; a count past
   * the end of the payload takes what is there.
   */
  function ParseEndPointFindReport(payload: seq<Byte>): (r: EndPointFindReport)
    ensures r.genericClass == At(payload, 1) && r.specificClass == At(payload, 2)
    ensures |payload| >= 3 ==> |r.foundEndpoints| == Min(ByteOr0(payload, 0), |payload| - 3)
    ensures |payload| < 3 ==> r.foundEndpoints == []
    ensures forall i :: 0 <= i < |r.foundEndpoints| ==>
              r.foundEndpoints[i] < 0x80 && r.foundEndpoints[i] == payload[3 + i] % 0x80
  {
    var found := if |payload| < 3 then [] else payload[3..3 + Min(ByteOr0(payload, 0), |payload| - 3)];
    EndPointFindReport(At(payload, 1), At(payload, 2), seq(|found|, i requires 0 <= i < |found| => Low7(found[i])))
  }

  /** End Point Find: the generic and the specific device class, each as its low byte. */
  function SerializeEndPointFind(genericClass: nat, specificClass: nat): (r: seq<Byte>)
    ensures |r| == 2 && r[0] == genericClass % 256 && r[1] == specificClass % 256
  {
    [genericClass % 256, specificClass % 256]
  }

  /** A Find Report lists every endpoint it carries, in order, when they are all below 128. */
  lemma FindReportListsEndpoints(genericClass: Byte, specificClass: Byte, endpoints: seq<Byte>)
    requires |endpoints| < 256 && forall i :: 0 <= i < |endpoints| ==> endpoints[i] < 0x80
    ensures ParseEndPointFindReport([|endpoints|, genericClass, specificClass] + endpoints)
            == EndPointFindReport(Some(genericClass), Some(specificClass), endpoints)
  {
    var r := ParseEndPointFindReport([|endpoints|, genericClass, specificClass] + endpoints);
    assert |r.foundEndpoints| == |endpoints|;
    assert forall i :: 0 <= i < |endpoints| ==> r.foundEndpoints[i] == endpoints[i];
  }

  datatype AggregatedMembersReport = AggregatedMembersReport(endpoint: nat, members: set<nat>)

  /**
   * The Aggregated Members Report constructor: the endpoint in the low seven
   * bits of byte 0, and the members decoded from the bit mask whose length
   * byte 1 gives, from byte 2 on (cut at the end of the payload).
   */
  function ParseAggregatedMembersReport(payload: seq<Byte>, parseBitMask: BitMaskParser): (r: AggregatedMembersReport)
    ensures r.endpoint < 0x80 && r.endpoint == ByteOr0(payload, 0) % 0x80
    ensures |payload| >= 2 + ByteOr0(payload, 1) ==>
              r.members == parseBitMask(payload[2..2 + ByteOr0(payload, 1)])
    ensures |payload| < 2 ==> r.members == parseBitMask([])
  {
    var mask := if |payload| < 2 then [] else payload[2..2 + Min(payload[1], |payload| - 2)];
    AggregatedMembersReport(Low7(ByteOr0(payload, 0)), parseBitMask(mask))
  }

  /** An Aggregated Members Report answering a Get names the endpoint asked for. */
  lemma AggregatedMembersAnswersGet(endpoint: nat, mask: seq<Byte>, parseBitMask: BitMaskParser)
    requires endpoint < 0x80 && |mask| < 256
    ensures ParseAggregatedMembersReport(SerializeEndpointGet(endpoint) + [|mask|] + mask, parseBitMask)
            == AggregatedMembersReport(endpoint, parseBitMask(mask))
  {
    var p := SerializeEndpointGet(endpoint) + [|mask|] + mask;
    assert p[2..2 + |mask|] == mask;
  }

  /** The destination of an encapsulated command: one endpoint, or a set of endpoints 1..7 as a bit mask. */
  datatype Destination = Single(endpoint: nat) | Multiple(endpoints: set<nat>)

  datatype CommandEncapsulation = CommandEncapsulation(sourceEndPoint: nat, destination: Destination, encapsulated: seq<Byte>)

  /** The destination byte: a single endpoint's low seven bits, or the mask's first byte with bit 7 set. */
  function DestinationByte(destination: Destination, encodeBitMask: BitMaskEncoder): (r: Byte)
    ensures destination.Single? ==> r == destination.endpoint % 0x80
    ensures destination.Multiple? ==> r >= 0x80
  {
    match destination
    case Single(endpoint) => Low7(endpoint)
    case Multiple(endpoints) =>
      Low7(ByteOr0(encodeBitMask(endpoints, 7), 0)) + 0x80
  }

  /** CommandEncapsulation.serialize: the source's low seven bits, the destination byte, then the command. */
  function SerializeEncapsulation(e: CommandEncapsulation, encodeBitMask: BitMaskEncoder): (r: seq<Byte>)
    ensures |r| == 2 + |e.encapsulated| && r[2..] == e.encapsulated
    ensures r[0] == e.sourceEndPoint % 0x80
    ensures r[1] >= 0x80 <==> e.destination.Multiple?
  {
    [Low7(e.sourceEndPoint), DestinationByte(e.destination, encodeBitMask)] + e.encapsulated
  }

  /**
   * The Command Encapsulation constructor on a received payload: the source
   * in the low seven bits of byte 0; bit 7 of byte 1 says whether its low
   * seven bits are a bit mask of endpoints or one endpoint; the command
   * follows from byte 2.
   */
  function DeserializeEncapsulation(payload: seq<Byte>, parseBitMask: BitMaskParser): (r: CommandEncapsulation)
    ensures r.sourceEndPoint == ByteOr0(payload, 0) % 0x80
    ensures ByteOr0(payload, 1) >= 0x80 ==> r.destination == Multiple(parseBitMask([ByteOr0(payload, 1) % 0x80]))
    ensures ByteOr0(payload, 1) < 0x80 ==> r.destination == Single(ByteOr0(payload, 1))
    ensures r.encapsulated == Drop(payload, 2)
  {
    var b0 := ByteOr0(payload, 0);
    var b1 := ByteOr0(payload, 1);
    var destination := Low7(b1);
    CommandEncapsulation(Low7(b0),
                         if b1 >= 0x80 then Multiple(parseBitMask([destination])) else Single(destination),
                         Drop(payload, 2))
  }

  /** The header round-trips for a source and a single destination below 128. */
  lemma EncapsulationRoundTrip(e: CommandEncapsulation, encodeBitMask: BitMaskEncoder, parseBitMask: BitMaskParser)
    requires e.sourceEndPoint < 0x80 && e.destination.Single? && e.destination.endpoint < 0x80
    ensures DeserializeEncapsulation(SerializeEncapsulation(e, encodeBitMask), parseBitMask) == e
  {
  }

  /**
   * A bit-mask destination round-trips whenever the bit mask codec does on
   * one byte: the mask's first byte leaves bit 7 clear and decodes back to
   * the endpoints.
   */
  lemma EncapsulationMaskRoundTrip(e: CommandEncapsulation, encodeBitMask: BitMaskEncoder, parseBitMask: BitMaskParser)
    requires e.sourceEndPoint < 0x80 && e.destination.Multiple?
    requires |encodeBitMask(e.destination.endpoints, 7)| >= 1
    requires encodeBitMask(e.destination.endpoints, 7)[0] < 0x80
    requires parseBitMask([encodeBitMask(e.destination.endpoints, 7)[0]]) == e.destination.endpoints
    ensures DeserializeEncapsulation(SerializeEncapsulation(e, encodeBitMask), parseBitMask) == e
  {
    var m := encodeBitMask(e.destination.endpoints, 7)[0];
    assert DestinationByte(e.destination, encodeBitMask) == m + 0x80;
    var bytes := SerializeEncapsulation(e, encodeBitMask);
    assert ByteOr0(bytes, 1) == m + 0x80 && ByteOr0(bytes, 0) == e.sourceEndPoint;
    assert ByteOr0(bytes, 1) % 0x80 == m;
    assert Drop(bytes, 2) == e.encapsulated;
  }
}
