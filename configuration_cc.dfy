/**
 * The Configuration command class: which commands a version supports, the
 * value codec for the configuration value formats, the Set, Bulk Set, Bulk
 * Get, Get and 16-bit parameter Get serializers, the Report, Bulk Report,
 * Name/Info Report and Properties Report parsers, the Bulk Set response rule
 * and the merging of partial Name/Info reports.
 *
 * The stored format of a parameter (getParamInformation) and the bit mask
 * codecs (parseBitMask, encodeBitMask) are not part of this model and are
 * parameters. Text in Name/Info reports stays as bytes.
 */
module ConfigurationCC {
  import opened Wrappers
  import opened Errors
  import opened Bytes
  import opened Text

  datatype ConfigurationCommand =
    | DefaultReset | Set | Get | Report | BulkSet | BulkGet | BulkReport
    | NameGet | NameReport | InfoGet | InfoReport | PropertiesGet | PropertiesReport

  /**
   * supportsCommand: Get and Set always, the bulk commands from version 2,
   * Name/Info/Properties Get from version 3; None leaves the answer to the
   * command class base, which is not part of this model.
   */
  function SupportsCommand(cmd: ConfigurationCommand, version: nat): (r: Option<bool>)
    ensures (cmd == Get || cmd == Set) ==> r == Some(true)
    ensures (cmd == BulkGet || cmd == BulkSet) ==> r == Some(version >= 2)
    ensures (cmd == NameGet || cmd == InfoGet || cmd == PropertiesGet) ==> r == Some(version >= 3)
    ensures r.None? <==> cmd in {DefaultReset, Report, BulkReport, NameReport, InfoReport, PropertiesReport}
  {
    match cmd
    case Get => Some(true)
    case Set => Some(true)
    case BulkGet => Some(version >= 2)
    case BulkSet => Some(version >= 2)
    case NameGet => Some(version >= 3)
    case InfoGet => Some(version >= 3)
    case PropertiesGet => Some(version >= 3)
    case _ => None
  }

  /** ValueFormat: the numbers a Properties Report can carry in its 3-bit format field. */
  const SignedInteger: nat := 0x00
  const UnsignedInteger: nat := 0x01
  const Enumerated: nat := 0x02
  const BitField: nat := 0x03

  /** A configuration value: a number, or the set of bits of a bit field. */
  datatype ConfigValue = Num(n: int) | Bits(bits: set<nat>)

  type BitMaskParser = seq<Byte> -> set<nat>
  type BitMaskEncoder = (set<nat>, nat) -> seq<Byte>

  /** `getParamInformation(p).format || SignedInteger`: an unknown format reads as SignedInteger (0). */
  function FormatOr0(format: Option<nat>): nat {
    if format.Some? then format.value else SignedInteger
  }

  /** The byte lengths Buffer's readIntBE/writeIntBE and friends accept. */
  predicate ValidSize(size: int) {
    1 <= size <= 6
  }

  /**
   * parseValue: a signed or unsigned big-endian integer of `size` bytes, or
   * the bits of a bit field; any other format falls through to `undefined`.
   * The integer reads throw a RangeError for a bad size or a short buffer.
   */
  function ParseValue(raw: seq<Byte>, size: nat, format: nat, parseBitMask: BitMaskParser): (r: Result<Option<ConfigValue>, Thrown>)
    ensures r.Err? <==> format <= Enumerated && !(ValidSize(size) && size <= |raw|)
    ensures r.Err? ==> r.error == RangeError
    ensures format > BitField ==> r == Ok(None)
    ensures r.Ok? && format <= BitField ==> r.value.Some?
    ensures r.Ok? && format == SignedInteger ==> r.value.value == Num(IntBE(raw[..size]))
    ensures r.Ok? && (format == UnsignedInteger || format == Enumerated) ==> r.value.value == Num(UIntBE(raw[..size]))
  {
    if format == SignedInteger then
      if ValidSize(size) && size <= |raw| then Ok(Some(Num(IntBE(raw[..size])))) else Err(RangeError)
    else if format == UnsignedInteger || format == Enumerated then
      if ValidSize(size) && size <= |raw| then Ok(Some(Num(UIntBE(raw[..size])))) else Err(RangeError)
    else if format == BitField then
      Ok(Some(Bits(parseBitMask(raw[..if size <= |raw| then size else |raw|]))))
    else Ok(None)
  }

  /** The value's kind is the one its format casts it to. */
  predicate Matches(format: nat, value: ConfigValue) {
    (format <= Enumerated ==> value.Num?) && (format == BitField ==> value.Bits?)
  }

  /** Whether serializeValue accepts the value: integers must fit in `size` bytes of a valid length. */
  predicate Fits(format: nat, value: ConfigValue, size: nat) {
    if format == SignedInteger then value.Num? && ValidSize(size) && -Half(size) <= value.n < Half(size)
    else if format == UnsignedInteger || format == Enumerated then
      value.Num? && ValidSize(size) && 0 <= value.n < Pow256(size)
    else true
  }

  function Zeros(n: nat): (r: seq<Byte>)
    ensures |r| == n && forall i :: 0 <= i < n ==> r[i] == 0
  {
    seq(n, _ => 0)
  }

  /** A bit mask cut or zero-padded to `size` bytes, as copying it into a zeroed slot leaves it. */
  function FitMask(mask: seq<Byte>, size: nat): (r: seq<Byte>)
    ensures |r| == size
  {
    if |mask| >= size then mask[..size] else mask + Zeros(size - |mask|)
  }

  /** The `size` bytes serializeValue writes for a value of a known format. */
  function EncodedValue(format: nat, value: ConfigValue, size: nat, encodeBitMask: BitMaskEncoder): (r: seq<Byte>)
    requires format <= BitField && Matches(format, value) && Fits(format, value, size)
    ensures |r| == size
  {
    if format == SignedInteger then EncodeIntBE(value.n, size)
    else if format == BitField then FitMask(encodeBitMask(value.bits, size * 8), size)
    else EncodeUIntBE(value.n, size)
  }

  /** For every integer format, parseValue reads back what serializeValue wrote. */
  lemma ValueRoundTrip(format: nat, v: int, size: nat, rest: seq<Byte>, parseBitMask: BitMaskParser, encodeBitMask: BitMaskEncoder)
    requires format <= Enumerated && Fits(format, Num(v), size)
    ensures ParseValue(EncodedValue(format, Num(v), size, encodeBitMask) + rest, size, format, parseBitMask)
            == Ok(Some(Num(v)))
  {
    var e := EncodedValue(format, Num(v), size, encodeBitMask);
    assert (e + rest)[..size] == e;
    if format == SignedInteger {
      IntBERoundTrip(v, size);
    } else {
      UIntBERoundTrip(v, size);
    }
  }

  /**
   * serializeValue: writes the value's bytes into `payload` at `offset`.
   * An integer that does not fit throws a RangeError before anything is
   * written; an unknown format writes nothing.
   */
  method SerializeValue(payload: array<Byte>, offset: nat, size: nat, format: nat, value: ConfigValue,
                        encodeBitMask: BitMaskEncoder) returns (err: Option<Thrown>)
    requires Matches(format, value) && offset + size <= payload.Length
    modifies payload
    ensures err.Some? <==> format <= Enumerated && !Fits(format, value, size)
    ensures err.Some? ==> err.value == RangeError
    ensures err.Some? || format > BitField ==> payload[..] == old(payload[..])
    ensures err.None? && format <= BitField ==>
              payload[..] == old(payload[..])[..offset] + EncodedValue(format, value, size, encodeBitMask)
                             + old(payload[..])[offset + size..]
  {
    if format > BitField {
      return None;
    }
    if !Fits(format, value, size) {
      return Some(RangeError);
    }
    var bytes := EncodedValue(format, value, size, encodeBitMask);
    ghost var before := payload[..];
    var j := 0;
    while j < size
      invariant 0 <= j <= size
      invariant forall k :: 0 <= k < payload.Length ==>
                  payload[k] == if offset <= k < offset + j then bytes[k - offset] else before[k]
    {
      payload[offset + j] := bytes[j];
      j := j + 1;
    }
    Spliced(before, payload[..], offset, bytes);
    return None;
  }

  /**
   * The flags byte of a Set: bit 7 for a reset to the default, the size in
   * bits 2..0. The bits do not overlap, so the byte is written as their sum
   * (SetFlagsIsOr proves it is the OR the serializer computes).
   */
  function SetFlags(resetToDefault: bool, size: nat): (r: Byte)
    ensures r >= 0x80 <==> resetToDefault
    ensures r % 8 == size % 8
  {
    (if resetToDefault then 0x80 else 0) + size % 8
  }

  /** The Set flags byte is bit 7 ORed with the size, and reads back through the bit tests. */
  lemma SetFlagsIsOr(resetToDefault: bool, size: nat)
    ensures SetFlags(resetToDefault, size) == Or(if resetToDefault then 0x80 else 0, size % 8)
    ensures Flag(SetFlags(resetToDefault, size), 0x80) <==> resetToDefault
    ensures And(SetFlags(resetToDefault, size), 0x07) == size % 8
  {
    var high := if resetToDefault then 0x80 else 0;
    FlagsWithSize(high, size % 8);
    FlagHighBit(high + size % 8);
  }

  /**
   * The bit tests the parsers make on a flags byte, read arithmetically:
   * `b & 0x07` is b mod 8, `b & 0x80` is set from 128 up and `b & 0x40` is
   * set when b mod 128 is 64 or more. The parsers below use the arithmetic
   * reading.
   */
  lemma FlagsOfByte(b: Byte)
    ensures And(b, 0x07) == b % 8
    ensures Flag(b, 0x80) <==> b >= 0x80
    ensures Flag(b, 0x40) <==> b % 0x80 >= 0x40
  {
    AndLow3(b);
    FlagHighBit(b);
    FlagBit6(b);
  }

  datatype ConfigurationSetCommand = ConfigurationSetCommand(
    parameter: nat, resetToDefault: bool, valueSize: nat, value: ConfigValue)

  /** The size a Set serializes: 1 when resetting to the default, else its value size. */
  function SetSize(s: ConfigurationSetCommand): nat {
    if s.resetToDefault then 1 else s.valueSize
  }

  /**
   * Set.serialize: a zeroed buffer of 2 + size bytes holding the parameter,
   * the flags byte and, unless resetting, the value in the parameter's format.
   */
  method SerializeSet(s: ConfigurationSetCommand, format: nat, encodeBitMask: BitMaskEncoder)
    returns (r: Result<seq<Byte>, Thrown>)
    requires s.resetToDefault || Matches(format, s.value)
    ensures r.Ok? <==> s.resetToDefault || !(format <= Enumerated && !Fits(format, s.value, SetSize(s)))
    ensures r.Err? ==> r.error == RangeError
    ensures r.Ok? ==> (|r.value| == 2 + SetSize(s)
                       && r.value[0] == s.parameter % 256
                       && r.value[1] == SetFlags(s.resetToDefault, SetSize(s)))
    ensures r.Ok? && (s.resetToDefault || format > BitField) ==> r.value[2..] == Zeros(SetSize(s))
    ensures r.Ok? && !s.resetToDefault && format <= BitField ==>
              r.value[2..] == EncodedValue(format, s.value, SetSize(s), encodeBitMask)
  {
    var size := SetSize(s);
    var payload := new Byte[2 + size](_ => 0);
    payload[0] := s.parameter % 256;
    payload[1] := SetFlags(s.resetToDefault, size);
    assert payload[2..] == Zeros(size);
    if !s.resetToDefault {
      var err := SerializeValue(payload, 2, size, format, s.value, encodeBitMask);
      if err.Some? {
        return Err(err.value);
      }
    }
    return Ok(payload[..]);
  }

  /** Get.serialize: the parameter's low byte. */
  function SerializeGet(parameter: nat): (r: seq<Byte>)
    ensures |r| == 1 && r[0] == parameter % 256
  {
    [parameter % 256]
  }

  /** Name Get, Info Get and Properties Get: the parameter as a 16-bit big-endian number. */
  function SerializeParameter16(parameter: nat): (r: Result<seq<Byte>, Thrown>)
    ensures r.Ok? <==> parameter < 0x10000
    ensures r.Err? ==> r.error == RangeError
    ensures r.Ok? ==> |r.value| == 2 && UIntBE(r.value) == parameter
  {
    if parameter < 0x10000 then Ok(U16BE(parameter)) else Err(RangeError)
  }

  /** Each parameter is one more than the one before it (the model's reading of isConsecutiveArray). */
  predicate Consecutive(s: seq<nat>) {
    forall i :: 0 <= i < |s| - 1 ==> s[i + 1] == s[i] + 1
  }

  datatype BulkSetCommand = BulkSetCommand(
    parameters: seq<nat>, resetToDefault: bool, valueSize: nat, values: seq<ConfigValue>, handshake: bool)

  /**
   * The Bulk Set constructor: an empty or non-consecutive parameter list
   * throws CC_Invalid; a reset forces a value size of 1 and all-zero values.
   */
  function NewBulkSet(parameters: seq<nat>, handshake: bool, resetToDefault: bool, valueSize: nat,
                      values: seq<ConfigValue>): (r: Result<BulkSetCommand, Thrown>)
    ensures r.Err? <==> parameters == [] || !Consecutive(parameters)
    ensures r.Err? ==> r.error == ZWaveError(CC_Invalid)
    ensures r.Ok? ==> (r.value.parameters == parameters && r.value.handshake == handshake
                       && r.value.resetToDefault == resetToDefault)
    ensures r.Ok? && resetToDefault ==> (r.value.valueSize == 1 && |r.value.values| == |parameters|
                                         && forall i :: 0 <= i < |parameters| ==> r.value.values[i] == Num(0))
    ensures r.Ok? && !resetToDefault ==> r.value.valueSize == valueSize && r.value.values == values
  {
    if |parameters| < 1 then Err(ZWaveError(CC_Invalid))
    else if !Consecutive(parameters) then Err(ZWaveError(CC_Invalid))
    else if resetToDefault then Ok(BulkSetCommand(parameters, true, 1, seq(|parameters|, _ => Num(0)), handshake))
    else Ok(BulkSetCommand(parameters, false, valueSize, values, handshake))
  }

  /** getResponseForBulkSet: a Bulk Set expects a Bulk Report only when it asks for a handshake. */
  function ExpectedResponseForBulkSet(b: BulkSetCommand): (r: Option<ConfigurationCommand>)
    ensures r.Some? <==> b.handshake
    ensures r.Some? ==> r.value == BulkReport
  {
    if b.handshake then Some(BulkReport) else None
  }

  /**
   * The flags byte of a Bulk Set: bit 7 reset, bit 6 handshake, the size in
   * bits 2..0, written as the sum of the non-overlapping bits
   * (BulkSetFlagsIsOr proves it is the OR the serializer computes).
   */
  function BulkSetFlags(resetToDefault: bool, handshake: bool, size: nat): Byte {
    (if resetToDefault then 0x80 else 0) + (if handshake then 0x40 else 0) + size % 8
  }

  /** The Bulk Set flags byte reads back, arithmetically, as what it was built from. */
  lemma BulkSetFlagsReads(resetToDefault: bool, handshake: bool, size: nat)
    ensures var r := BulkSetFlags(resetToDefault, handshake, size);
            && (r >= 0x80 <==> resetToDefault)
            && (r % 0x80 >= 0x40 <==> handshake)
            && r % 8 == size % 8
  {
    var high := (if resetToDefault then 0x80 else 0) + (if handshake then 0x40 else 0);
    HeaderSum(if resetToDefault then 0x80 else 0, if handshake then 0x40 else 0);
    SumBits(high, size % 8);
  }

  /** The Bulk Set flags byte is bits 7 and 6 ORed together and then with the size. */
  lemma BulkSetFlagsIsOr(resetToDefault: bool, handshake: bool, size: nat)
    ensures BulkSetFlags(resetToDefault, handshake, size)
            == Or(Or(if resetToDefault then 0x80 else 0, if handshake then 0x40 else 0), size % 8)
  {
    var reset := if resetToDefault then 0x80 else 0;
    var shake := if handshake then 0x40 else 0;
    HeaderSum(reset, shake);
    OrHighBits(reset, shake);
    FlagsWithSize(reset + shake, size % 8);
  }

  /** The sum of bit 7 and bit 6, each set or clear, as plain arithmetic. */
  lemma HeaderSum(reset: Byte, shake: Byte)
    requires reset == 0 || reset == 0x80
    requires shake == 0 || shake == 0x40
    ensures (reset + shake) % 8 == 0
    ensures reset + shake >= 0x80 <==> reset == 0x80
    ensures (reset + shake) % 0x80 >= 0x40 <==> shake == 0x40
  {
  }

  /** Adding a size below 8 to a multiple of 8 leaves bits 7 and 6 as they were. */
  lemma SumBits(high: Byte, size: nat)
    requires size < 8 && high % 8 == 0
    ensures high + size >= 0x80 <==> high >= 0x80
    ensures (high + size) % 0x80 >= 0x40 <==> high % 0x80 >= 0x40
  {
  }

  /** The size a Bulk Set serializes. */
  function BulkSize(b: BulkSetCommand): nat {
    if b.resetToDefault then 1 else b.valueSize
  }

  /** What a Bulk Set may ask of its values: one per parameter, each of its parameter's kind. */
  predicate BulkValuesMatch(b: BulkSetCommand, formatOf: nat -> nat) {
    b.resetToDefault
    || (|b.values| >= |b.parameters|
        && forall i :: 0 <= i < |b.parameters| ==> Matches(formatOf(b.parameters[i]), b.values[i]))
  }

  /** Whether the i-th value of a Bulk Set fits its slot (a reset has nothing to fit). */
  predicate SlotFits(b: BulkSetCommand, formatOf: nat -> nat, i: nat)
    requires i < |b.parameters| && BulkValuesMatch(b, formatOf)
  {
    b.resetToDefault
    || !(formatOf(b.parameters[i]) <= Enumerated && !Fits(formatOf(b.parameters[i]), b.values[i], b.valueSize))
  }

  /** Whether every value of a Bulk Set fits its slot. */
  predicate BulkValuesFit(b: BulkSetCommand, formatOf: nat -> nat)
    requires BulkValuesMatch(b, formatOf)
  {
    forall i :: 0 <= i < |b.parameters| ==> SlotFits(b, formatOf, i)
  }

  /** The bytes of the i-th slot of a Bulk Set. */
  function BulkSlot(b: BulkSetCommand, formatOf: nat -> nat, encodeBitMask: BitMaskEncoder, i: nat): (r: seq<Byte>)
    requires i < |b.parameters| && BulkValuesMatch(b, formatOf) && SlotFits(b, formatOf, i)
    ensures |r| == BulkSize(b)
  {
    var format := formatOf(b.parameters[i]);
    if b.resetToDefault || format > BitField then Zeros(BulkSize(b))
    else EncodedValue(format, b.values[i], b.valueSize, encodeBitMask)
  }

  /** The first n slots of a Bulk Set, in order. */
  function BulkSlots(b: BulkSetCommand, formatOf: nat -> nat, encodeBitMask: BitMaskEncoder, n: nat): (r: seq<Byte>)
    requires n <= |b.parameters| && BulkValuesMatch(b, formatOf)
    requires forall j :: 0 <= j < n ==> SlotFits(b, formatOf, j)
    ensures |r| == Mul(n, BulkSize(b))
  {
    if n == 0 then [] else BulkSlots(b, formatOf, encodeBitMask, n - 1) + BulkSlot(b, formatOf, encodeBitMask, n - 1)
  }

  /** Slot i of the Bulk Set payload lies at offset i·size of the slots. */
  lemma {:induction false} BulkSlotAt(b: BulkSetCommand, formatOf: nat -> nat, encodeBitMask: BitMaskEncoder, n: nat, i: nat)
    requires i < n <= |b.parameters| && BulkValuesMatch(b, formatOf)
    requires forall j :: 0 <= j < n ==> SlotFits(b, formatOf, j)
    ensures Mul(i, BulkSize(b)) + BulkSize(b) <= Mul(n, BulkSize(b))
    ensures BulkSlots(b, formatOf, encodeBitMask, n)[Mul(i, BulkSize(b))..Mul(i, BulkSize(b)) + BulkSize(b)]
            == BulkSlot(b, formatOf, encodeBitMask, i)
  {
    var size := BulkSize(b);
    var prev := BulkSlots(b, formatOf, encodeBitMask, n - 1);
    var last := BulkSlot(b, formatOf, encodeBitMask, n - 1);
    assert BulkSlots(b, formatOf, encodeBitMask, n) == prev + last;
    assert |prev| == Mul(n - 1, size) && |last| == size && Mul(n, size) == |prev| + size;
    if i < n - 1 {
      BulkSlotAt(b, formatOf, encodeBitMask, n - 1, i);
      SliceOfLeft(prev, last, Mul(i, size), Mul(i, size) + size);
    } else {
      SliceOfRight(prev, last);
      assert Mul(i, size) == |prev|;
    }
  }

  /** A slice within the left part of a concatenation is a slice of that part. */
  lemma SliceOfLeft(a: seq<Byte>, c: seq<Byte>, lo: nat, hi: nat)
    requires lo <= hi <= |a|
    ensures (a + c)[lo..hi] == a[lo..hi]
  {
  }

  /** The right part of a concatenation is the slice after the left part. */
  lemma SliceOfRight(a: seq<Byte>, c: seq<Byte>)
    ensures (a + c)[|a|..|a| + |c|] == c
  {
  }

  /** A reset writes no values: all its slots stay zero. */
  lemma {:induction false} ResetSlotsZero(b: BulkSetCommand, formatOf: nat -> nat, encodeBitMask: BitMaskEncoder, n: nat)
    requires b.resetToDefault && n <= |b.parameters| && BulkValuesMatch(b, formatOf)
    ensures BulkSlots(b, formatOf, encodeBitMask, n) == Zeros(n)
  {
    if n > 0 {
      ResetSlotsZero(b, formatOf, encodeBitMask, n - 1);
    }
  }

  /** Writing slot i over the zeros that follow the first i slots. */
  lemma WriteSlot(header: seq<Byte>, slots: seq<Byte>, slot: seq<Byte>, rest: nat, before: seq<Byte>, after: seq<Byte>)
    requires |header| == 4
    requires before == header + slots + Zeros(|slot| + rest)
    requires after == before[..4 + |slots|] + slot + before[4 + |slots| + |slot|..]
    ensures after == header + (slots + slot) + Zeros(rest)
  {
    assert before[..4 + |slots|] == header + slots;
    assert before[4 + |slots| + |slot|..] == Zeros(rest);
  }

  /** a·b, spelled out so that slot offsets stay linear for the solver. */
  function Mul(a: nat, b: nat): nat {
    if a == 0 then 0 else Mul(a - 1, b) + b
  }

  lemma {:induction false} MulMonotone(i: nat, n: nat, size: nat)
    requires i <= n
    ensures Mul(i, size) <= Mul(n, size)
  {
    if i < n {
      MulMonotone(i, n - 1, size);
    }
  }

  /**
   * The Bulk Set buffer after i turns of the serializer's loop: the header,
   * the first i values in their slots and zeros for the rest.
   */
  predicate SlotsWritten(p: seq<Byte>, b: BulkSetCommand, formatOf: nat -> nat, encodeBitMask: BitMaskEncoder,
                         header: seq<Byte>, i: nat)
    requires BulkValuesMatch(b, formatOf)
  {
    i <= |b.parameters|
    && (forall j :: 0 <= j < i ==> SlotFits(b, formatOf, j))
    && p == header + BulkSlots(b, formatOf, encodeBitMask, i) + Zeros(Mul(|b.parameters| - i, b.valueSize))
  }

  /** One step of the loop of BulkSet.serialize: value i goes into slot i, behind the slots already written. */
  method WriteBulkValue(payload: array<Byte>, b: BulkSetCommand, formatOf: nat -> nat, encodeBitMask: BitMaskEncoder,
                        ghost header: seq<Byte>, i: nat) returns (err: Option<Thrown>)
    requires !b.resetToDefault && BulkValuesMatch(b, formatOf) && |header| == 4 && i < |b.parameters|
    requires SlotsWritten(payload[..], b, formatOf, encodeBitMask, header, i)
    modifies payload
    ensures err.Some? <==> !SlotFits(b, formatOf, i)
    ensures err.Some? ==> err.value == RangeError
    ensures err.None? ==> SlotsWritten(payload[..], b, formatOf, encodeBitMask, header, i + 1)
  {
    var size := b.valueSize;
    ghost var before := payload[..];
    SlotInBuffer(before, b, formatOf, encodeBitMask, header, i);
    var format := formatOf(b.parameters[i]);
    err := SerializeValue(payload, 4 + Mul(i, size), size, format, b.values[i], encodeBitMask);
    if err.Some? {
      return;
    }
    StepWritten(before, payload[..], b, formatOf, encodeBitMask, header, i);
  }

  /** Slot i lies inside the buffer. */
  lemma SlotInBuffer(p: seq<Byte>, b: BulkSetCommand, formatOf: nat -> nat, encodeBitMask: BitMaskEncoder,
                     header: seq<Byte>, i: nat)
    requires !b.resetToDefault && BulkValuesMatch(b, formatOf) && |header| == 4 && i < |b.parameters|
    requires SlotsWritten(p, b, formatOf, encodeBitMask, header, i)
    ensures 4 + Mul(i, b.valueSize) + b.valueSize <= |p|
  {
    assert Mul(|b.parameters| - i, b.valueSize) == Mul(|b.parameters| - i - 1, b.valueSize) + b.valueSize;
  }

  /**
   * Writing value i into slot i (or leaving the zeros there for a format
   * that writes nothing) takes the buffer from i slots written to i + 1.
   */
  lemma StepWritten(before: seq<Byte>, after: seq<Byte>, b: BulkSetCommand, formatOf: nat -> nat,
                    encodeBitMask: BitMaskEncoder, header: seq<Byte>, i: nat)
    requires !b.resetToDefault && BulkValuesMatch(b, formatOf) && |header| == 4 && i < |b.parameters|
    requires SlotsWritten(before, b, formatOf, encodeBitMask, header, i) && SlotFits(b, formatOf, i)
    requires formatOf(b.parameters[i]) > BitField ==> after == before
    requires formatOf(b.parameters[i]) <= BitField ==>
               4 + Mul(i, b.valueSize) + b.valueSize <= |before|
               && after == before[..4 + Mul(i, b.valueSize)]
                           + EncodedValue(formatOf(b.parameters[i]), b.values[i], b.valueSize, encodeBitMask)
                           + before[4 + Mul(i, b.valueSize) + b.valueSize..]
    ensures SlotsWritten(after, b, formatOf, encodeBitMask, header, i + 1)
  {
    var size := b.valueSize;
    var rest := Mul(|b.parameters| - i - 1, size);
    var slots := BulkSlots(b, formatOf, encodeBitMask, i);
    var slot := BulkSlot(b, formatOf, encodeBitMask, i);
    assert Mul(|b.parameters| - i, size) == size + rest;
    assert before == header + slots + Zeros(|slot| + rest);
    if formatOf(b.parameters[i]) > BitField {
      ZeroSlot(header, slots, size, rest);
    }
    WriteSlot(header, slots, slot, rest, before, after);
    assert forall j :: 0 <= j < i + 1 ==> SlotFits(b, formatOf, j);
    SlotsStep(b, formatOf, encodeBitMask, i);
  }

  /** The first i + 1 slots are the first i followed by slot i. */
  lemma SlotsStep(b: BulkSetCommand, formatOf: nat -> nat, encodeBitMask: BitMaskEncoder, i: nat)
    requires i < |b.parameters| && BulkValuesMatch(b, formatOf)
    requires forall j :: 0 <= j < i + 1 ==> SlotFits(b, formatOf, j)
    ensures BulkSlots(b, formatOf, encodeBitMask, i + 1)
            == BulkSlots(b, formatOf, encodeBitMask, i) + BulkSlot(b, formatOf, encodeBitMask, i)
  {
  }

  /** Zeros in the slot behind the written ones are the zeros of that slot spliced in. */
  lemma ZeroSlot(header: seq<Byte>, slots: seq<Byte>, size: nat, rest: nat)
    ensures var p := header + slots + Zeros(size + rest);
            p == p[..|header| + |slots|] + Zeros(size) + p[|header| + |slots| + size..]
  {
    var p := header + slots + Zeros(size + rest);
    assert p[..|header| + |slots|] == header + slots;
    assert p[|header| + |slots| + size..] == Zeros(rest);
    assert Zeros(size + rest) == Zeros(size) + Zeros(rest);
  }

  /** The loop of BulkSet.serialize: each value goes into its slot; the first value that does not fit throws. */
  method WriteBulkValues(payload: array<Byte>, b: BulkSetCommand, formatOf: nat -> nat, encodeBitMask: BitMaskEncoder,
                         ghost header: seq<Byte>) returns (err: Option<Thrown>)
    requires !b.resetToDefault && BulkValuesMatch(b, formatOf) && |header| == 4
    requires payload[..] == header + Zeros(Mul(|b.parameters|, b.valueSize))
    modifies payload
    ensures err.Some? <==> !BulkValuesFit(b, formatOf)
    ensures err.Some? ==> err.value == RangeError
    ensures err.None? ==> payload[..] == header + BulkSlots(b, formatOf, encodeBitMask, |b.parameters|)
  {
    var n := |b.parameters|;
    var i := 0;
    NothingWritten(b, formatOf, encodeBitMask, header);
    while i < n
      invariant 0 <= i <= n
      invariant SlotsWritten(payload[..], b, formatOf, encodeBitMask, header, i)
    {
      err := WriteBulkValue(payload, b, formatOf, encodeBitMask, header, i);
      if err.Some? {
        assert !SlotFits(b, formatOf, i);
        return;
      }
      i := i + 1;
    }
    AllWritten(payload[..], b, formatOf, encodeBitMask, header);
    return None;
  }

  /** Before the loop of BulkSet.serialize, the buffer is the header followed by no slots and zeros. */
  lemma NothingWritten(b: BulkSetCommand, formatOf: nat -> nat, encodeBitMask: BitMaskEncoder, header: seq<Byte>)
    requires BulkValuesMatch(b, formatOf)
    ensures SlotsWritten(header + Zeros(Mul(|b.parameters|, b.valueSize)), b, formatOf, encodeBitMask, header, 0)
  {
    assert header + BulkSlots(b, formatOf, encodeBitMask, 0) == header;
  }

  /** After the loop of BulkSet.serialize, no zeros are left behind the slots. */
  lemma AllWritten(p: seq<Byte>, b: BulkSetCommand, formatOf: nat -> nat, encodeBitMask: BitMaskEncoder, header: seq<Byte>)
    requires BulkValuesMatch(b, formatOf) && BulkValuesFit(b, formatOf)
    ensures SlotsWritten(p, b, formatOf, encodeBitMask, header, |b.parameters|)
            <==> p == header + BulkSlots(b, formatOf, encodeBitMask, |b.parameters|)
  {
    assert Zeros(Mul(0, b.valueSize)) == [];
  }

  /**
   * BulkSet.serialize: a zeroed buffer of 4 + size·n bytes with the first
   * parameter as UInt16BE, the count, the flags, and then, unless
   * resetting, each value in its slot. A first parameter above 0xffff or a
   * value that does not fit throws a RangeError.
   */
  method SerializeBulkSet(b: BulkSetCommand, formatOf: nat -> nat, encodeBitMask: BitMaskEncoder)
    returns (r: Result<seq<Byte>, Thrown>)
    requires b.parameters != [] && BulkValuesMatch(b, formatOf)
    ensures r.Ok? <==> b.parameters[0] < 0x10000 && BulkValuesFit(b, formatOf)
    ensures r.Err? ==> r.error == RangeError
    ensures r.Ok? ==> (r.value == U16BE(b.parameters[0])
                                  + [|b.parameters| % 256, BulkSetFlags(b.resetToDefault, b.handshake, BulkSize(b))]
                                  + BulkSlots(b, formatOf, encodeBitMask, |b.parameters|))
  {
    var size := BulkSize(b);
    var n := |b.parameters|;
    var payload := new Byte[4 + Mul(n, size)](_ => 0);
    if b.parameters[0] >= 0x10000 {
      return Err(RangeError);
    }
    var header := U16BE(b.parameters[0]) + [n % 256, BulkSetFlags(b.resetToDefault, b.handshake, size)];
    payload[0], payload[1], payload[2], payload[3] := header[0], header[1], header[2], header[3];
    assert payload[..] == header + Zeros(Mul(n, size));
    if b.resetToDefault {
      ResetSlotsZero(b, formatOf, encodeBitMask, n);
      return Ok(payload[..]);
    }
    var err := WriteBulkValues(payload, b, formatOf, encodeBitMask, header);
    if err.Some? {
      return Err(err.value);
    }
    return Ok(payload[..]);
  }

  /** Whether s is in ascending numeric order. */
  predicate Ascending(s: seq<nat>) {
    forall i, j :: 0 <= i < j < |s| ==> s[i] <= s[j]
  }

  /** The i-th element of a consecutive run is the first plus i. */
  lemma {:induction false} ConsecutiveAt(s: seq<nat>, i: nat)
    requires Consecutive(s) && i < |s|
    ensures s[i] == s[0] + i
  {
    if i > 0 {
      ConsecutiveAt(s, i - 1);
    }
  }

  /** A consecutive run is in ascending order. */
  lemma ConsecutiveAscending(s: seq<nat>)
    requires Consecutive(s)
    ensures Ascending(s)
  {
    forall i, j | 0 <= i < j < |s|
      ensures s[i] <= s[j]
    {
      ConsecutiveAt(s, i);
      ConsecutiveAt(s, j);
    }
  }

  /** The order JavaScript compares strings in: code unit by code unit, a proper prefix first. */
  predicate CodeUnitLess(a: seq<char>, b: seq<char>) {
    if a == [] then b != []
    else if b == [] then false
    else if a[0] != b[0] then a[0] < b[0]
    else CodeUnitLess(a[1..], b[1..])
  }

  /** Array.prototype.sort without a comparator: numbers are ordered by their decimal strings. */
  predicate StringOrderBefore(a: nat, b: nat) {
    CodeUnitLess(Decimal(a), Decimal(b))
  }

  /** Ordering by value, as a numeric comparator would sort. */
  predicate NumericBefore(a: nat, b: nat) {
    a < b
  }

  /** x inserted ahead of the first element it does not come after (so equal keys keep their order). */
  function Insert(x: nat, s: seq<nat>, before: (nat, nat) -> bool): (r: seq<nat>)
    ensures multiset(r) == multiset(s) + multiset{x}
  {
    if s == [] || !before(s[0], x) then [x] + s
    else
      assert s == [s[0]] + s[1..];
      [s[0]] + Insert(x, s[1..], before)
  }

  /** A stable insertion sort under an ordering; the engine's own sort yields the same order. */
  function SortBy(s: seq<nat>, before: (nat, nat) -> bool): (r: seq<nat>)
    ensures multiset(r) == multiset(s)
  {
    if s == [] then []
    else
      assert s == [s[0]] + s[1..];
      Insert(s[0], SortBy(s[1..], before), before)
  }

  lemma {:induction false} InsertAscending(x: nat, s: seq<nat>)
    requires Ascending(s)
    ensures Ascending(Insert(x, s, NumericBefore))
  {
    if s != [] && NumericBefore(s[0], x) {
      InsertAscending(x, s[1..]);
      var t := Insert(x, s[1..], NumericBefore);
      forall k | 0 <= k < |t|
        ensures s[0] <= t[k]
      {
        assert t[k] in multiset(t);
        if t[k] != x {
          assert t[k] in multiset(s[1..]);
          var m :| 0 <= m < |s[1..]| && s[1..][m] == t[k];
          assert s[m + 1] == t[k];
        }
      }
    }
  }

  /** Sorting numerically yields ascending order. */
  lemma {:induction false} SortAscending(s: seq<nat>)
    ensures Ascending(SortBy(s, NumericBefore))
  {
    if s != [] {
      SortAscending(s[1..]);
      InsertAscending(s[0], SortBy(s[1..], NumericBefore));
    }
  }

  /** Every element of an ascending sequence is at least its first. */
  lemma HeadIsLeast(s: seq<nat>, x: nat)
    requires Ascending(s) && x in multiset(s)
    ensures s != [] && s[0] <= x
  {
    var k :| 0 <= k < |s| && s[k] == x;
  }

  /** Taking the first element off a sequence takes it out of its multiset. */
  lemma TailMultiset(s: seq<nat>)
    requires s != []
    ensures multiset(s[1..]) == multiset(s) - multiset{s[0]}
  {
    assert s == [s[0]] + s[1..];
  }

  /**
   * Two non-empty ascending sequences with the same elements start with the
   * same element, and their tails are ascending with the same elements.
   */
  lemma SameHead(a: seq<nat>, b: seq<nat>)
    requires Ascending(a) && Ascending(b) && multiset(a) == multiset(b) && a != []
    ensures b != [] && a[0] == b[0]
    ensures Ascending(a[1..]) && Ascending(b[1..]) && multiset(a[1..]) == multiset(b[1..])
  {
    assert a[0] in multiset(a);
    HeadIsLeast(b, a[0]);
    assert b[0] in multiset(b);
    HeadIsLeast(a, b[0]);
    TailMultiset(a);
    TailMultiset(b);
  }

  /** Two ascending sequences with the same elements are equal. */
  lemma {:induction false} AscendingUnique(a: seq<nat>, b: seq<nat>)
    requires Ascending(a) && Ascending(b) && multiset(a) == multiset(b)
    ensures a == b
  {
    if a == [] {
      assert |multiset(b)| == 0;
    } else {
      SameHead(a, b);
      AscendingUnique(a[1..], b[1..]);
      assert a == [a[0]] + a[1..];
      assert b == [b[0]] + b[1..];
    }
  }

  datatype BulkGetCommand = BulkGetCommand(parameters: seq<nat>)

  /**
   * The Bulk Get constructor as written: the parameters go through
   * Array.prototype.sort() with no comparator, which orders them by their
   * decimal strings, and a list that is then not consecutive throws
   * CC_Invalid.
   */
  function NewBulkGetAsWritten(parameters: seq<nat>): (r: Result<BulkGetCommand, Thrown>)
    ensures r.Err? <==> !Consecutive(SortBy(parameters, StringOrderBefore))
    ensures r.Err? ==> r.error == ZWaveError(CC_Invalid)
    ensures r.Ok? ==> multiset(r.value.parameters) == multiset(parameters)
  {
    var sorted := SortBy(parameters, StringOrderBefore);
    if Consecutive(sorted) then Ok(BulkGetCommand(sorted)) else Err(ZWaveError(CC_Invalid))
  }

  /** Parameters 9 and 10 are consecutive, yet the string-order sort puts 10 first and the constructor throws. */
  lemma BulkGetStringSortCounterexample()
    ensures Consecutive([9, 10])
    ensures NewBulkGetAsWritten([9, 10]) == Err(ZWaveError(CC_Invalid))
  {
    TenSortsBeforeNine();
    assert SortBy([10], StringOrderBefore) == Insert(10, [], StringOrderBefore) == [10];
    assert [9, 10][1..] == [10];
    assert SortBy([9, 10], StringOrderBefore) == Insert(9, [10], StringOrderBefore);
    assert Insert(9, [10], StringOrderBefore) == [10] + Insert(9, [], StringOrderBefore) == [10, 9];
    assert !Consecutive([10, 9]);
  }

  /** "10" comes before "9" in string order. */
  lemma TenSortsBeforeNine()
    ensures StringOrderBefore(10, 9)
  {
    assert Decimal(1) == ['1'];
    assert Decimal(10) == Decimal(1) + [DigitChar(0)] == ['1', '0'];
    assert Decimal(9) == ['9'];
  }

  /**
   * The Bulk Get constructor with the parameters sorted by value: it accepts
   * exactly the parameter lists that are a consecutive run in some order,
   * and keeps them in ascending order.
   */
  function NewBulkGet(parameters: seq<nat>): (r: Result<BulkGetCommand, Thrown>)
    ensures r.Err? ==> r.error == ZWaveError(CC_Invalid)
    ensures r.Ok? ==> (multiset(r.value.parameters) == multiset(parameters)
                       && Ascending(r.value.parameters) && Consecutive(r.value.parameters))
  {
    var sorted := SortBy(parameters, NumericBefore);
    SortAscending(parameters);
    if Consecutive(sorted) then Ok(BulkGetCommand(sorted)) else Err(ZWaveError(CC_Invalid))
  }

  /** Any ordering of a consecutive run is accepted by the corrected Bulk Get and put back in order. */
  lemma BulkGetAcceptsConsecutiveRuns(parameters: seq<nat>, run: seq<nat>)
    requires Consecutive(run) && multiset(run) == multiset(parameters)
    ensures NewBulkGet(parameters) == Ok(BulkGetCommand(run))
  {
    SortAscending(parameters);
    ConsecutiveAscending(run);
    AscendingUnique(SortBy(parameters, NumericBefore), run);
  }

  /**
   * BulkGet.serialize: the first parameter as UInt16BE and the count. An
   * empty list writes `undefined`, which Buffer stores as 0; a first
   * parameter above 0xffff throws a RangeError.
   */
  function SerializeBulkGet(b: BulkGetCommand): (r: Result<seq<Byte>, Thrown>)
    ensures r.Ok? <==> b.parameters == [] || b.parameters[0] < 0x10000
    ensures r.Err? ==> r.error == RangeError
    ensures r.Ok? ==> (|r.value| == 3
                       && UIntBE(r.value[..2]) == (if b.parameters == [] then 0 else b.parameters[0])
                       && r.value[2] == |b.parameters| % 256)
  {
    var first := if b.parameters == [] then 0 else b.parameters[0];
    if first < 0x10000 then
      var r := U16BE(first) + [|b.parameters| % 256];
      assert r[..2] == U16BE(first);
      Ok(r)
    else Err(RangeError)
  }

  /** The parameters a Bulk Report with this first parameter and count carries. */
  function BulkReportKeys(first: nat, count: nat): (r: set<nat>)
    ensures forall p :: p in r <==> first <= p < first + count
  {
    if count == 0 then {} else BulkReportKeys(first, count - 1) + {first + count - 1}
  }

  /** A Bulk Report answering a Bulk Get's header carries exactly the parameters asked for. */
  lemma {:induction false} BulkGetAnsweredKeys(parameters: seq<nat>)
    requires parameters != [] && Consecutive(parameters)
    ensures BulkReportKeys(parameters[0], |parameters|) == set p | p in parameters
  {
    forall p | p in parameters
      ensures parameters[0] <= p < parameters[0] + |parameters|
    {
      var i :| 0 <= i < |parameters| && parameters[i] == p;
      ConsecutiveAt(parameters, i);
    }
    forall p: nat | parameters[0] <= p < parameters[0] + |parameters|
      ensures p in parameters
    {
      ConsecutiveAt(parameters, p - parameters[0]);
    }
  }

  /** A report's `reportsToFollow > 0`; `undefined > 0` is false. */
  function ExpectMoreMessages(reportsToFollow: Option<Byte>): (r: bool)
    ensures r <==> reportsToFollow.Some? && reportsToFollow.value != 0
  {
    match reportsToFollow
    case Some(n) => n > 0
    case None => false
  }

  /** The format a parameter's value is read in: an undefined parameter has no stored format. */
  function FormatOfParameter(parameter: Option<Byte>, formatOf: nat -> nat): nat {
    if parameter.Some? then formatOf(parameter.value as nat) else SignedInteger
  }

  datatype ConfigurationReport = ConfigurationReport(parameter: Option<Byte>, valueSize: nat, value: Option<ConfigValue>)

  /**
   * The Report constructor: the parameter in byte 0, the size in the low
   * three bits of byte 1 and the value from byte 2 on in the parameter's
   * stored format (SignedInteger when none is stored).
   */
  function ParseReport(payload: seq<Byte>, formatOf: nat -> nat, parseBitMask: BitMaskParser)
    : (r: Result<ConfigurationReport, Thrown>)
    ensures r.Err? <==> ParseValue(Drop(payload, 2), ByteOr0(payload, 1) % 8,
                                   FormatOfParameter(At(payload, 0), formatOf), parseBitMask).Err?
    ensures r.Err? ==> r.error == RangeError
    ensures r.Ok? ==> (r.value.parameter == At(payload, 0) && r.value.valueSize == ByteOr0(payload, 1) % 8)
    ensures r.Ok? && FormatOfParameter(At(payload, 0), formatOf) <= Enumerated ==>
              (r.value.valueSize <= |payload| - 2 && r.value.value.Some? && r.value.value.value.Num?)
  {
    var parameter := At(payload, 0);
    var size := ByteOr0(payload, 1) % 8;
    var value := ParseValue(Drop(payload, 2), size, FormatOfParameter(parameter, formatOf), parseBitMask);
    if value.Err? then Err(value.error) else Ok(ConfigurationReport(parameter, size, value.value))
  }

  /** A Report carrying what a Set of an integer value wrote reads back the parameter, the size and the value. */
  lemma SetReportRoundTrip(s: ConfigurationSetCommand, formatOf: nat -> nat, parseBitMask: BitMaskParser,
                           encodeBitMask: BitMaskEncoder)
    requires !s.resetToDefault && formatOf(s.parameter % 256) <= Enumerated
    requires Fits(formatOf(s.parameter % 256), s.value, s.valueSize)
    ensures ParseReport([s.parameter % 256, SetFlags(false, s.valueSize)]
                        + EncodedValue(formatOf(s.parameter % 256), s.value, s.valueSize, encodeBitMask),
                        formatOf, parseBitMask)
            == Ok(ConfigurationReport(Some(s.parameter % 256), s.valueSize, Some(s.value)))
  {
    var format := formatOf(s.parameter % 256);
    var e := EncodedValue(format, s.value, s.valueSize, encodeBitMask);
    assert s.valueSize % 8 == s.valueSize;
    ValueRoundTrip(format, s.value.n, s.valueSize, [], parseBitMask, encodeBitMask);
    assert e + [] == e;
    ReportOf(s.parameter % 256, SetFlags(false, s.valueSize), e, s.valueSize, formatOf, parseBitMask);
  }

  /** A Report whose size bits and body read as a value reads back the parameter, the size and that value. */
  lemma ReportOf(parameter: Byte, flags: Byte, e: seq<Byte>, size: nat, formatOf: nat -> nat,
                 parseBitMask: BitMaskParser)
    requires flags % 8 == size
    requires ParseValue(e, size, formatOf(parameter), parseBitMask).Ok?
    ensures ParseReport([parameter, flags] + e, formatOf, parseBitMask)
            == Ok(ConfigurationReport(Some(parameter), size, ParseValue(e, size, formatOf(parameter), parseBitMask).value))
  {
    HeadedParts(parameter, flags, e);
  }

  /** A payload of two header bytes and a body reads back the three parts. */
  lemma HeadedParts(a: Byte, b: Byte, e: seq<Byte>)
    ensures var p := [a, b] + e; At(p, 0) == Some(a) && ByteOr0(p, 1) == b && Drop(p, 2) == e
  {
    assert ([a, b] + e)[2..] == e;
  }

  datatype ConfigurationBulkReport = ConfigurationBulkReport(
    reportsToFollow: Option<Byte>, defaultValues: bool, isHandshakeResponse: bool, valueSize: nat,
    values: map<nat, Option<ConfigValue>>)

  /** The value of parameter first + i of a Bulk Report: parseValue on the bytes from 5 + i·size. */
  function BulkReportEntry(payload: seq<Byte>, size: nat, first: nat, i: nat, formatOf: nat -> nat,
                           parseBitMask: BitMaskParser): Result<Option<ConfigValue>, Thrown>
  {
    ParseValue(Drop(payload, 5 + Mul(i, size)), size, formatOf(first + i), parseBitMask)
  }

  /** Whether the Bulk Report constructor gets through: a first parameter and every value it counts. */
  predicate BulkReportReadable(payload: seq<Byte>, formatOf: nat -> nat, parseBitMask: BitMaskParser) {
    |payload| >= 2
    && forall i :: 0 <= i < ByteOr0(payload, 2) ==>
         BulkReportEntry(payload, ByteOr0(payload, 4) % 8, UIntBE(payload[..2]), i, formatOf, parseBitMask).Ok?
  }

  /**
   * The Bulk Report constructor: the first parameter as UInt16BE (a RangeError
   * on a shorter payload), the count in byte 2, reportsToFollow in byte 3,
   * the flags in byte 4, and then one value per parameter, read in a loop;
   * the first value that cannot be read throws.
   */
  method ParseBulkReport(payload: seq<Byte>, formatOf: nat -> nat, parseBitMask: BitMaskParser)
    returns (r: Result<ConfigurationBulkReport, Thrown>)
    ensures r.Ok? <==> BulkReportReadable(payload, formatOf, parseBitMask)
    ensures r.Err? ==> r.error == RangeError
    ensures r.Ok? ==> (r.value.reportsToFollow == At(payload, 3)
                       && r.value.defaultValues == (ByteOr0(payload, 4) >= 0x80)
                       && r.value.isHandshakeResponse == (ByteOr0(payload, 4) % 0x80 >= 0x40)
                       && r.value.valueSize == ByteOr0(payload, 4) % 8
                       && r.value.values.Keys == BulkReportKeys(UIntBE(payload[..2]), ByteOr0(payload, 2))
                       && forall i :: 0 <= i < ByteOr0(payload, 2) ==>
                            r.value.values[UIntBE(payload[..2]) + i]
                            == BulkReportEntry(payload, r.value.valueSize, UIntBE(payload[..2]), i,
                                               formatOf, parseBitMask).value)
  {
    if |payload| < 2 {
      return Err(RangeError);
    }
    var first := UIntBE(payload[..2]);
    var count := ByteOr0(payload, 2);
    var flags := ByteOr0(payload, 4);
    var size := flags % 8;
    var values: map<nat, Option<ConfigValue>> := map[];
    var i := 0;
    while i < count
      invariant 0 <= i <= count
      invariant forall j :: 0 <= j < i ==> BulkReportEntry(payload, size, first, j, formatOf, parseBitMask).Ok?
      invariant values.Keys == BulkReportKeys(first, i)
      invariant forall j :: 0 <= j < i ==>
                  values[first + j] == BulkReportEntry(payload, size, first, j, formatOf, parseBitMask).value
    {
      var value := ParseValue(Drop(payload, 5 + Mul(i, size)), size, formatOf(first + i), parseBitMask);
      if value.Err? {
        assert BulkReportEntry(payload, size, first, i, formatOf, parseBitMask).Err?;
        return Err(value.error);
      }
      values := values[first + i := value.value];
      i := i + 1;
    }
    return Ok(ConfigurationBulkReport(At(payload, 3), flags >= 0x80, flags % 0x80 >= 0x40, size, values));
  }

  /**
   * A Bulk Report laid out like a Bulk Set: the first parameter, the count,
   * reportsToFollow, the flags, then the Bulk Set's slots.
   */
  function BulkSetAsReport(b: BulkSetCommand, formatOf: nat -> nat, encodeBitMask: BitMaskEncoder, reportsToFollow: Byte)
    : (r: seq<Byte>)
    requires BulkValuesMatch(b, formatOf) && BulkValuesFit(b, formatOf)
    requires b.parameters != [] && b.parameters[0] < 0x10000
    ensures |r| == 5 + Mul(|b.parameters|, BulkSize(b))
  {
    U16BE(b.parameters[0]) + [|b.parameters| % 256, reportsToFollow, BulkSetFlags(b.resetToDefault, b.handshake, BulkSize(b))]
    + BulkSlots(b, formatOf, encodeBitMask, |b.parameters|)
  }

  /**
   * Such a report of integer values reads back the size from the flags and,
   * for each parameter, the value the Bulk Set carried for it.
   */
  lemma BulkSetReportRoundTrip(b: BulkSetCommand, formatOf: nat -> nat, parseBitMask: BitMaskParser,
                               encodeBitMask: BitMaskEncoder, reportsToFollow: Byte, i: nat)
    requires !b.resetToDefault && BulkValuesMatch(b, formatOf) && BulkValuesFit(b, formatOf)
    requires b.parameters != [] && Consecutive(b.parameters) && b.parameters[0] < 0x10000
    requires i < |b.parameters| && formatOf(b.parameters[i]) <= Enumerated
    ensures BulkSetFlags(false, b.handshake, b.valueSize) % 8 == b.valueSize
    ensures b.parameters[0] + i == b.parameters[i]
    ensures BulkReportEntry(BulkSetAsReport(b, formatOf, encodeBitMask, reportsToFollow),
                            b.valueSize, b.parameters[0], i, formatOf, parseBitMask)
            == Ok(Some(b.values[i]))
  {
    assert SlotFits(b, formatOf, i);
    SmallSize(b.valueSize);
    BulkSetFlagsReads(false, b.handshake, b.valueSize);
    BulkEntryReadsBack(b, formatOf, parseBitMask, encodeBitMask, reportsToFollow, i);
  }

  lemma SmallSize(size: nat)
    requires ValidSize(size)
    ensures size % 8 == size
  {
  }

  /** The i-th entry of a Bulk Set laid out as a report reads back its value. */
  lemma BulkEntryReadsBack(b: BulkSetCommand, formatOf: nat -> nat, parseBitMask: BitMaskParser,
                           encodeBitMask: BitMaskEncoder, reportsToFollow: Byte, i: nat)
    requires !b.resetToDefault && BulkValuesMatch(b, formatOf) && BulkValuesFit(b, formatOf)
    requires b.parameters != [] && Consecutive(b.parameters) && b.parameters[0] < 0x10000
    requires i < |b.parameters| && formatOf(b.parameters[i]) <= Enumerated
    ensures b.parameters[0] + i == b.parameters[i]
    ensures BulkReportEntry(BulkSetAsReport(b, formatOf, encodeBitMask, reportsToFollow),
                            b.valueSize, b.parameters[0], i, formatOf, parseBitMask)
            == Ok(Some(b.values[i]))
  {
    var n := |b.parameters|;
    ConsecutiveAt(b.parameters, i);
    var header := U16BE(b.parameters[0]) + [n % 256, reportsToFollow, BulkSetFlags(false, b.handshake, b.valueSize)];
    var slots := BulkSlots(b, formatOf, encodeBitMask, n);
    var size := b.valueSize;
    var format := formatOf(b.parameters[i]);
    var v := b.values[i].n;
    assert BulkSetAsReport(b, formatOf, encodeBitMask, reportsToFollow) == header + slots by {
      AsReportParts(b, formatOf, encodeBitMask, reportsToFollow);
    }
    assert b.values[i] == Num(v) && Fits(format, Num(v), size)
           && Mul(i, size) + size <= |slots| && slots[Mul(i, size)..Mul(i, size) + size] == EncodedValue(format, Num(v), size, encodeBitMask) by {
      BulkSlotAt(b, formatOf, encodeBitMask, n, i);
      IntegerSlot(b, formatOf, encodeBitMask, i);
    }
    EntryBehindHeader(header, slots, b.parameters[0], i, size, formatOf, v, encodeBitMask, parseBitMask);
  }

  /** A Bulk Set that sets values, laid out as a report: the header with its flags, then the slots. */
  lemma AsReportParts(b: BulkSetCommand, formatOf: nat -> nat, encodeBitMask: BitMaskEncoder, reportsToFollow: Byte)
    requires !b.resetToDefault && BulkValuesMatch(b, formatOf) && BulkValuesFit(b, formatOf)
    requires b.parameters != [] && b.parameters[0] < 0x10000
    ensures BulkSetAsReport(b, formatOf, encodeBitMask, reportsToFollow)
            == U16BE(b.parameters[0]) + [|b.parameters| % 256, reportsToFollow, BulkSetFlags(false, b.handshake, b.valueSize)]
               + BulkSlots(b, formatOf, encodeBitMask, |b.parameters|)
  {
  }

  /** The slot of an integer value of a Bulk Set that sets values is that value, serialized. */
  lemma IntegerSlot(b: BulkSetCommand, formatOf: nat -> nat, encodeBitMask: BitMaskEncoder, i: nat)
    requires !b.resetToDefault && BulkValuesMatch(b, formatOf) && BulkValuesFit(b, formatOf)
    requires i < |b.parameters| && formatOf(b.parameters[i]) <= Enumerated
    ensures BulkSize(b) == b.valueSize && b.values[i] == Num(b.values[i].n)
    ensures Fits(formatOf(b.parameters[i]), Num(b.values[i].n), b.valueSize)
    ensures BulkSlot(b, formatOf, encodeBitMask, i)
            == EncodedValue(formatOf(b.parameters[i]), Num(b.values[i].n), b.valueSize, encodeBitMask)
  {
    assert SlotFits(b, formatOf, i);
    assert Matches(formatOf(b.parameters[i]), b.values[i]);
  }

  /** Behind a 5-byte header, entry i of a report whose slot holds an integer value reads back that value. */
  lemma EntryBehindHeader(header: seq<Byte>, slots: seq<Byte>, first: nat, i: nat, size: nat, formatOf: nat -> nat,
                          v: int, encodeBitMask: BitMaskEncoder, parseBitMask: BitMaskParser)
    requires |header| == 5 && formatOf(first + i) <= Enumerated && Fits(formatOf(first + i), Num(v), size)
    requires Mul(i, size) + size <= |slots|
    requires slots[Mul(i, size)..Mul(i, size) + size] == EncodedValue(formatOf(first + i), Num(v), size, encodeBitMask)
    ensures BulkReportEntry(header + slots, size, first, i, formatOf, parseBitMask) == Ok(Some(Num(v)))
  {
    var at := Mul(i, size);
    var format := formatOf(first + i);
    assert BulkReportEntry(header + slots, size, first, i, formatOf, parseBitMask)
           == ParseValue(Drop(header + slots, 5 + at), size, format, parseBitMask);
    SlotReadsBack(header, slots, at, format, v, size, encodeBitMask, parseBitMask);
  }

  /** Behind a 5-byte header, the slot at `at` holding an integer value reads back that value. */
  lemma SlotReadsBack(header: seq<Byte>, slots: seq<Byte>, at: nat, format: nat, v: int, size: nat,
                      encodeBitMask: BitMaskEncoder, parseBitMask: BitMaskParser)
    requires |header| == 5 && format <= Enumerated && Fits(format, Num(v), size)
    requires at + size <= |slots| && slots[at..at + size] == EncodedValue(format, Num(v), size, encodeBitMask)
    ensures ParseValue(Drop(header + slots, 5 + at), size, format, parseBitMask) == Ok(Some(Num(v)))
  {
    var e := EncodedValue(format, Num(v), size, encodeBitMask);
    DropIntoSlot(header, slots, at, e);
    ValueRoundTrip(format, v, size, slots[at + size..], parseBitMask, encodeBitMask);
  }

  /** Behind a 5-byte header, the bytes from a slot's offset on start with that slot. */
  lemma DropIntoSlot(header: seq<Byte>, slots: seq<Byte>, at: nat, e: seq<Byte>)
    requires |header| == 5 && at + |e| <= |slots| && slots[at..at + |e|] == e
    ensures Drop(header + slots, 5 + at) == e + slots[at + |e|..]
  {
    assert (header + slots)[5 + at..] == slots[at..];
    assert slots[at..] == slots[at..at + |e|] + slots[at + |e|..];
  }

  /** Which of the two text reports a report is. */
  datatype TextKind = ParameterName | ParameterInfo

  datatype TextReportFields = TextReportFields(parameter: nat, reportsToFollow: Option<Byte>, text: seq<Byte>)

  /**
   * The Name Report and Info Report constructors: the parameter as UInt16BE
   * (a RangeError on a shorter payload), reportsToFollow in byte 2 and the
   * text from byte 3 on.
   */
  function ParseTextReport(payload: seq<Byte>): (r: Result<TextReportFields, Thrown>)
    ensures r.Ok? <==> |payload| >= 2
    ensures r.Err? ==> r.error == RangeError
    ensures r.Ok? ==> (r.value.parameter == UIntBE(payload[..2]) && r.value.reportsToFollow == At(payload, 2)
                       && payload == payload[..2] + (if |payload| > 2 then [payload[2]] else []) + r.value.text)
  {
    if |payload| < 2 then Err(RangeError)
    else Ok(TextReportFields(UIntBE(payload[..2]), At(payload, 2), Drop(payload, 3)))
  }

  /** A text report answering a Name Get or Info Get carries the parameter asked for. */
  lemma TextReportAnswersParameter(parameter: nat, rest: seq<Byte>)
    requires parameter < 0x10000
    ensures ParseTextReport(SerializeParameter16(parameter).value + rest).Ok?
    ensures ParseTextReport(SerializeParameter16(parameter).value + rest).value.parameter == parameter
  {
    var bytes := SerializeParameter16(parameter).value + rest;
    assert bytes[..2] == SerializeParameter16(parameter).value;
  }

  /** The left-to-right concatenation of texts, as `reduce((prev, cur) => prev + cur, "")` builds it. */
  function Concat(texts: seq<seq<Byte>>): seq<Byte> {
    if texts == [] then [] else Concat(texts[..|texts| - 1]) + texts[|texts| - 1]
  }

  /** Concatenating in two parts gives the concatenation of the whole. */
  lemma {:induction false} ConcatAppend(a: seq<seq<Byte>>, b: seq<seq<Byte>>)
    ensures Concat(a + b) == Concat(a) + Concat(b)
  {
    if b == [] {
      assert a + b == a;
    } else {
      ConcatAppend(a, b[..|b| - 1]);
      assert (a + b)[..|a + b| - 1] == a + b[..|b| - 1];
      assert (a + b)[|a + b| - 1] == b[|b| - 1];
      calc {
        Concat(a + b);
        Concat(a + b[..|b| - 1]) + b[|b| - 1];
        Concat(a) + Concat(b[..|b| - 1]) + b[|b| - 1];
        Concat(a) + (Concat(b[..|b| - 1]) + b[|b| - 1]);
        Concat(a) + Concat(b);
      }
    }
  }

  /** Every text's bytes are in the concatenation: its length is the sum of the lengths. */
  lemma {:induction false} ConcatLength(texts: seq<seq<Byte>>, k: nat)
    requires k <= |texts|
    ensures |Concat(texts[..k])| <= |Concat(texts)|
  {
    ConcatAppend(texts[..k], texts[k..]);
    assert texts[..k] + texts[k..] == texts;
  }

  /** A Name Report or Info Report; its text is rewritten when the partial reports are merged into it. */
  class TextReport {
    const kind: TextKind
    const parameter: nat
    const reportsToFollow: Option<Byte>
    var text: seq<Byte>

    constructor (kind: TextKind, fields: TextReportFields)
      ensures this.kind == kind && parameter == fields.parameter && reportsToFollow == fields.reportsToFollow
      ensures text == fields.text
    {
      this.kind := kind;
      parameter := fields.parameter;
      reportsToFollow := fields.reportsToFollow;
      text := fields.text;
    }

    /**
     * mergePartialCCs: the text becomes the partials' texts and then this
     * report's own, concatenated in arrival order.
     */
    method MergePartialCCs(partials: seq<TextReport>)
      modifies this
      ensures text == Concat(old(TextsOf(partials)) + [old(text)])
    {
      var merged: seq<Byte> := [];
      var k := 0;
      while k < |partials|
        invariant 0 <= k <= |partials|
        invariant merged == Concat(TextsOf(partials[..k]))
      {
        assert partials[..k + 1][..k] == partials[..k];
        merged := merged + partials[k].text;
        k := k + 1;
      }
      assert partials[..k] == partials;
      merged := merged + text;
      assert (TextsOf(partials) + [text])[..|partials|] == TextsOf(partials);
      text := merged;
    }
  }

  /** The texts of the reports, in order. */
  function TextsOf(reports: seq<TextReport>): (r: seq<seq<Byte>>)
    reads reports
    ensures |r| == |reports|
  {
    if reports == [] then [] else TextsOf(reports[..|reports| - 1]) + [reports[|reports| - 1].text]
  }

  /** The value format of a Properties Report: bits 5..3 of byte 2. */
  function PropertiesFormat(payload: seq<Byte>): (r: nat)
    ensures r < 8
  {
    And(ByteOr0(payload, 2), 0x38) / 8
  }

  /** The value size of a Properties Report: bits 2..0 of byte 2. */
  function PropertiesSize(payload: seq<Byte>): (r: nat)
    ensures r < 8
  {
    And(ByteOr0(payload, 2), 0x07)
  }

  /** The value the Properties Report carries at `offset`, for the report's size and format. */
  function PropertiesValue(payload: seq<Byte>, offset: nat, size: nat, format: nat, parseBitMask: BitMaskParser)
    : (r: Result<Option<ConfigValue>, Thrown>)
    ensures r.Err? <==> format <= Enumerated && !(ValidSize(size) && offset + size <= |payload|)
    ensures r.Ok? && format == SignedInteger ==> r == Ok(Some(Num(IntBE(payload[offset..offset + size]))))
    ensures r.Ok? && (format == UnsignedInteger || format == Enumerated) ==>
              r == Ok(Some(Num(UIntBE(payload[offset..offset + size]))))
  {
    assert offset + size <= |payload| ==> Drop(payload, offset)[..size] == payload[offset..offset + size];
    ParseValue(Drop(payload, offset), size, format, parseBitMask)
  }

  datatype PropertyValues = PropertyValues(
    minValue: Option<ConfigValue>, maxValue: Option<ConfigValue>, defaultValue: Option<ConfigValue>)

  /**
   * The minimum (not for a bit field), maximum and default values of a
   * Properties Report, one after the other from byte 3; none for size 0.
   */
  function ParsePropertyValues(payload: seq<Byte>, parseBitMask: BitMaskParser): (r: Result<PropertyValues, Thrown>)
    ensures r.Ok? <==> (PropertiesSize(payload) > 0 && PropertiesFormat(payload) <= Enumerated ==>
                          ValidSize(PropertiesSize(payload)) && 3 + 3 * PropertiesSize(payload) <= |payload|)
    ensures r.Err? ==> r.error == RangeError
    ensures r.Ok? && PropertiesSize(payload) == 0 ==> r.value == PropertyValues(None, None, None)
    ensures r.Ok? && PropertiesFormat(payload) == BitField ==> r.value.minValue == None
    ensures r.Ok? && PropertiesSize(payload) > 0 && PropertiesFormat(payload) == SignedInteger ==>
              r.value == IntegerValues(payload, PropertiesSize(payload), true)
    ensures r.Ok? && PropertiesSize(payload) > 0 && (PropertiesFormat(payload) == UnsignedInteger || PropertiesFormat(payload) == Enumerated) ==>
              r.value == IntegerValues(payload, PropertiesSize(payload), false)
  {
    var size := PropertiesSize(payload);
    var format := PropertiesFormat(payload);
    var r := PropertyValuesAt(payload, size, format, parseBitMask);
    if r.Ok? && size > 0 && format <= Enumerated then
      PropertyIntegers(payload, size, format, parseBitMask);
      r
    else r
  }

  /** The minimum, maximum and default integers, `size` bytes each from byte 3. */
  function IntegerValues(payload: seq<Byte>, size: nat, signed: bool): PropertyValues
    requires 0 < size && 3 + 3 * size <= |payload|
  {
    if signed then
      PropertyValues(Some(Num(IntBE(payload[3..3 + size]))),
                     Some(Num(IntBE(payload[3 + size..3 + 2 * size]))),
                     Some(Num(IntBE(payload[3 + 2 * size..3 + 3 * size]))))
    else
      PropertyValues(Some(Num(UIntBE(payload[3..3 + size]))),
                     Some(Num(UIntBE(payload[3 + size..3 + 2 * size]))),
                     Some(Num(UIntBE(payload[3 + 2 * size..3 + 3 * size]))))
  }

  /** The three values of a Properties Report for a given size and format. */
  function PropertyValuesAt(payload: seq<Byte>, size: nat, format: nat, parseBitMask: BitMaskParser)
    : (r: Result<PropertyValues, Thrown>)
    ensures r.Ok? <==> (size > 0 && format <= Enumerated ==> ValidSize(size) && 3 + 3 * size <= |payload|)
    ensures r.Err? ==> r.error == RangeError
    ensures r.Ok? && size == 0 ==> r.value == PropertyValues(None, None, None)
    ensures r.Ok? && format == BitField ==> r.value.minValue == None
  {
    if size == 0 then Ok(PropertyValues(None, None, None))
    else
      var minValue := if format != BitField then PropertiesValue(payload, 3, size, format, parseBitMask) else Ok(None);
      var maxValue := PropertiesValue(payload, 3 + size, size, format, parseBitMask);
      var defaultValue := PropertiesValue(payload, 3 + 2 * size, size, format, parseBitMask);
      assert minValue.Err? || maxValue.Err? || defaultValue.Err? <==> defaultValue.Err?;
      if minValue.Err? || maxValue.Err? || defaultValue.Err? then Err(RangeError)
      else Ok(PropertyValues(minValue.value, maxValue.value, defaultValue.value))
  }

  /** For an integer format the three values are the big-endian readings at 3, 3 + size and 3 + 2 * size. */
  lemma PropertyIntegers(payload: seq<Byte>, size: nat, format: nat, parseBitMask: BitMaskParser)
    requires 0 < size && format <= Enumerated
    requires PropertyValuesAt(payload, size, format, parseBitMask).Ok?
    ensures 3 + 3 * size <= |payload|
    ensures PropertyValuesAt(payload, size, format, parseBitMask).value
            == IntegerValues(payload, size, format == SignedInteger)
  {
    var minValue := PropertiesValue(payload, 3, size, format, parseBitMask);
    var maxValue := PropertiesValue(payload, 3 + size, size, format, parseBitMask);
    var defaultValue := PropertiesValue(payload, 3 + 2 * size, size, format, parseBitMask);
    assert minValue.Ok? && maxValue.Ok? && defaultValue.Ok?;
    var r := PropertyValuesAt(payload, size, format, parseBitMask).value;
    assert r == PropertyValues(minValue.value, maxValue.value, defaultValue.value);
  }

  datatype ConfigurationPropertiesReport = ConfigurationPropertiesReport(
    parameter: nat, valueFormat: nat, valueSize: nat, values: PropertyValues, nextParameter: nat,
    requiresReInclusion: Option<bool>, isReadonly: Option<bool>, isAdvanced: Option<bool>, noBulkSupport: Option<bool>)

  /**
   * The Properties Report constructor: the parameter as UInt16BE, the format
   * and size from byte 2, then the values. Before version 4 the next
   * parameter is read from the last two bytes; from version 4 it follows the
   * values, with the option flags in byte 2 and in the byte after it.
   */
  function ParsePropertiesReport(payload: seq<Byte>, version: nat, parseBitMask: BitMaskParser)
    : (r: Result<ConfigurationPropertiesReport, Thrown>)
    ensures r.Ok? <==> (|payload| >= 2 && ParsePropertyValues(payload, parseBitMask).Ok?
                        && (version >= 4 ==> 5 + 3 * PropertiesSize(payload) <= |payload|))
    ensures r.Err? ==> r.error == RangeError
    ensures r.Ok? ==> (r.value.parameter == UIntBE(payload[..2])
                       && r.value.valueFormat == PropertiesFormat(payload)
                       && r.value.valueSize == PropertiesSize(payload)
                       && r.value.values == ParsePropertyValues(payload, parseBitMask).value)
    ensures r.Ok? && version < 4 ==>
              (r.value.nextParameter == UIntBE(payload[|payload| - 2..])
               && r.value.requiresReInclusion == r.value.isReadonly == r.value.isAdvanced == r.value.noBulkSupport == None)
    ensures r.Ok? && version >= 4 ==>
              var at := 3 + 3 * PropertiesSize(payload);
              at + 2 <= |payload|
              && r.value.nextParameter == UIntBE(payload[at..at + 2])
              && r.value.requiresReInclusion == Some(Flag(payload[2], 0x80))
              && r.value.isReadonly == Some(Flag(payload[2], 0x40))
              && r.value.isAdvanced == Some(Flag(ByteOr0(payload, at + 2), 0x01))
              && r.value.noBulkSupport == Some(Flag(ByteOr0(payload, at + 2), 0x02))
  {
    if |payload| < 2 then Err(RangeError)
    else
      var format := PropertiesFormat(payload);
      var size := PropertiesSize(payload);
      var values := ParsePropertyValues(payload, parseBitMask);
      if values.Err? then Err(values.error)
      else
        var parameter := UIntBE(payload[..2]);
        if version < 4 then
          Ok(ConfigurationPropertiesReport(parameter, format, size, values.value,
                                           UIntBE(payload[|payload| - 2..]), None, None, None, None))
        else
          var at := 3 + 3 * size;
          if at + 2 > |payload| then Err(RangeError)
          else
            var options1 := payload[2];
            var options2 := ByteOr0(payload, at + 2);
            Ok(ConfigurationPropertiesReport(parameter, format, size, values.value, UIntBE(payload[at..at + 2]),
                                             Some(Flag(options1, 0x80)), Some(Flag(options1, 0x40)),
                                             Some(Flag(options2, 0x01)), Some(Flag(options2, 0x02))))
  }

  /**
   * On a report that carries its values and the next parameter and nothing
   * after them, reading the last two bytes (before version 4) and reading
   * behind the values (from version 4) find the same next parameter.
   */
  lemma PropertiesNextParameterAgrees(payload: seq<Byte>, parseBitMask: BitMaskParser)
    requires ParsePropertiesReport(payload, 3, parseBitMask).Ok?
    requires |payload| == 5 + 3 * PropertiesSize(payload)
    ensures ParsePropertiesReport(payload, 4, parseBitMask).Ok?
    ensures ParsePropertiesReport(payload, 4, parseBitMask).value.nextParameter
            == ParsePropertiesReport(payload, 3, parseBitMask).value.nextParameter
  {
    var at := 3 + 3 * PropertiesSize(payload);
    assert payload[|payload| - 2..] == payload[at..at + 2];
  }
}
