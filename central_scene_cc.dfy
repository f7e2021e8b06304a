/**
 * The Central Scene command class: the Notification, Supported Report and
 * Configuration Report parsers, the key-attribute support test and the
 * Configuration Set serializer.
 *
 * A missing byte reads as JavaScript's `undefined`: stored fields become
 * `None`, and inside a bit operation it counts as 0.
 */
module CentralSceneCC {
  import opened Wrappers
  import opened Errors
  import opened Bytes

  /** CentralSceneKeys. */
  const KeyPressed: nat := 0x00
  const KeyReleased: nat := 0x01
  const KeyHeldDown: nat := 0x02
  const KeyPressed2x: nat := 0x03
  const KeyPressed3x: nat := 0x04
  const KeyPressed4x: nat := 0x05
  const KeyPressed5x: nat := 0x06

  /** JavaScript's ToInt32: the two's complement reading of the low 32 bits. */
  function ToInt32(v: int): (r: int)
    ensures -0x8000_0000 <= r < 0x8000_0000
    ensures (r - v) % 0x1_0000_0000 == 0
  {
    var m := v % 0x1_0000_0000;
    if m >= 0x8000_0000 then m - 0x1_0000_0000 else m
  }

  /** JavaScript's `x << n`: the shift count is taken modulo 32 and the result is a signed 32-bit integer. */
  function Shl32(x: int, n: nat): (r: int)
    ensures -0x8000_0000 <= r < 0x8000_0000
  {
    ToInt32(x * Pow2(n % 32))
  }

  /** Whether bit k (k < 8) is set: for such k the 32-bit conversion of `&` keeps the bit. */
  predicate HasBit(x: int, k: nat) {
    (x / Pow2(k)) % 2 == 1
  }

  datatype Notification = Notification(
    sequenceNumber: Option<Byte>,
    keyAttribute: nat,
    sceneNumber: Option<Byte>,
    slowRefresh: bool)

  /** The Notification constructor: sequence number b0, key attribute b1 & 7, scene b2, slow refresh bit 7 of b1. */
  function ParseNotification(p: seq<Byte>): (r: Notification)
    ensures r.keyAttribute < 8
    ensures r.sequenceNumber == At(p, 0) && r.sceneNumber == At(p, 2)
    ensures r.slowRefresh <==> |p| > 1 && p[1] >= 0x80
  {
    FlagHighBit(ByteOr0(p, 1));
    Notification(At(p, 0), And(ByteOr0(p, 1), 0x07), At(p, 2), Flag(ByteOr0(p, 1), 0x80))
  }

  /** A notification as a device lays it out (not part of the source: the reference for the parser). */
  function EncodeNotification(sequenceNumber: Byte, key: nat, scene: Byte, slowRefresh: bool): seq<Byte>
    requires key < 8
  {
    [sequenceNumber, key + (if slowRefresh then 0x80 else 0), scene]
  }

  lemma LowBitsOfKeyByte(key: nat, slow: bool)
    requires key < 8
    ensures And(key + (if slow then 0x80 else 0), 0x07) == key
  {
    var high := if slow then 0x80 else 0;
    FlagsWithSize(high, key);
  }

  /** Every field of a notification survives encoding and parsing. */
  lemma NotificationRoundTrip(sequenceNumber: Byte, key: nat, scene: Byte, slowRefresh: bool)
    requires key < 8
    ensures ParseNotification(EncodeNotification(sequenceNumber, key, scene, slowRefresh))
            == Notification(Some(sequenceNumber), key, Some(scene), slowRefresh)
  {
    LowBitsOfKeyByte(key, slowRefresh);
  }

  /** The sum that builds one key-attribute mask: bytes base.. shifted left by 8·j with JavaScript's `<<`. */
  function MaskSum(p: seq<Byte>, base: nat, j: nat): int
  {
    if j == 0 then 0 else MaskSum(p, base, j - 1) + Shl32(ByteOr0(p, base + j - 1), 8 * (j - 1))
  }

  /** The masks of the first n entries, `width` bytes each, from offset 3. */
  function Masks(p: seq<Byte>, n: nat, width: nat): (r: seq<int>)
    ensures |r| == n
    ensures forall i :: 0 <= i < n ==> r[i] == MaskSum(p, 3 + width * i, width)
  {
    if n == 0 then [] else Masks(p, n - 1, width) + [MaskSum(p, 3 + width * (n - 1), width)]
  }

  /** The nested loops of the Supported Report constructor that accumulate the masks. */
  method ParseMasks(p: seq<Byte>, entries: nat, width: nat) returns (masks: seq<int>)
    ensures |masks| == entries
    ensures forall i :: 0 <= i < entries ==> masks[i] == MaskSum(p, 3 + width * i, width)
  {
    masks := [];
    var i := 0;
    while i < entries
      invariant 0 <= i <= entries
      invariant masks == Masks(p, i, width)
    {
      var mask := 0;
      var j := 0;
      while j < width
        invariant 0 <= j <= width
        invariant mask == MaskSum(p, 3 + width * i, j)
      {
        mask := mask + Shl32(ByteOr0(p, 3 + width * i + j), 8 * j);
        j := j + 1;
      }
      masks := masks + [mask];
      i := i + 1;
    }
  }

  datatype SupportedReport = SupportedReport(
    sceneCount: Option<Byte>,
    supportsSlowRefresh: bool,
    keyAttributesHaveIdenticalSupport: bool,
    supportedKeyAttributes: seq<int>)

  /** The number of bytes per mask as the constructor computes it: bits 2..1 of b1, not shifted down. */
  function BitMaskBytesAsWritten(b1: Byte): (r: nat)
    ensures r == 0 || r == 2 || r == 4 || r == 6
  {
    assert And(b1, 0x06) == 2 * AndBits(b1 / 2, 0x03, 7);
    And(b1, 0x06)
  }

  /** The number of bytes per mask the field encodes: bits 2..1 of b1 as a number 0..3. */
  function BitMaskBytes(b1: Byte): (r: nat)
    ensures r <= 3
  {
    BitMaskBytesAsWritten(b1) / 2
  }

  /** The corrected width is the two-bit field above bit 0 read as a number; the width as written is twice it. */
  lemma BitMaskBytesIsField(b1: Byte)
    ensures BitMaskBytes(b1) == (b1 / 2) % 4
    ensures BitMaskBytesAsWritten(b1) == 2 * BitMaskBytes(b1)
  {
    var x := b1 / 2;
    assert Pow2(2) == 4 && Ones(2) == 3;
    AndLowMask(x, 2, 7);
    assert Low(x / 2, 1) == x / 2 % 2;
    assert Low(x, 2) == x % 4;
  }

  /** The number of mask entries: one if all scenes share it, else one per scene (none when the count is missing). */
  function Entries(p: seq<Byte>): nat {
    if Flag(ByteOr0(p, 1), 0x01) then 1
    else if |p| > 0 then p[0] else 0
  }

  /** The Supported Report with masks `width` bytes wide. */
  function SupportedReportWith(p: seq<Byte>, width: nat): (r: SupportedReport)
    ensures r.sceneCount == At(p, 0)
    ensures r.keyAttributesHaveIdenticalSupport ==> |r.supportedKeyAttributes| == 1
    ensures !r.keyAttributesHaveIdenticalSupport && |p| > 0 ==> |r.supportedKeyAttributes| == p[0]
    ensures forall i :: 0 <= i < |r.supportedKeyAttributes| ==>
              r.supportedKeyAttributes[i] == MaskSum(p, 3 + width * i, width)
  {
    SupportedReport(At(p, 0), Flag(ByteOr0(p, 1), 0x80), Flag(ByteOr0(p, 1), 0x01),
                    Masks(p, Entries(p), width))
  }

  /** The Supported Report constructor as written, with the unshifted mask width. */
  method ParseSupportedReportAsWritten(p: seq<Byte>) returns (r: SupportedReport)
    ensures r == SupportedReportWith(p, BitMaskBytesAsWritten(ByteOr0(p, 1)))
  {
    var width := BitMaskBytesAsWritten(ByteOr0(p, 1));
    var masks := ParseMasks(p, Entries(p), width);
    r := SupportedReport(At(p, 0), Flag(ByteOr0(p, 1), 0x80), Flag(ByteOr0(p, 1), 0x01), masks);
  }

  /** The Supported Report constructor with the mask width the field encodes. */
  method ParseSupportedReport(p: seq<Byte>) returns (r: SupportedReport)
    ensures r == SupportedReportWith(p, BitMaskBytes(ByteOr0(p, 1)))
  {
    var width := BitMaskBytes(ByteOr0(p, 1));
    var masks := ParseMasks(p, Entries(p), width);
    r := SupportedReport(At(p, 0), Flag(ByteOr0(p, 1), 0x80), Flag(ByteOr0(p, 1), 0x01), masks);
  }

  /**
   * supportsKeyAttribute: bit `key` of the shared mask, or of the scene's own
   * mask (scene numbers start at 1); a mask that does not exist reads as
   * `undefined` and supports nothing.
   */
  function SupportsKeyAttribute(r: SupportedReport, sceneNumber: int, key: nat): (b: bool)
    requires key < 8
    ensures b ==> |r.supportedKeyAttributes| > 0
    ensures !r.keyAttributesHaveIdenticalSupport && !(1 <= sceneNumber <= |r.supportedKeyAttributes|) ==> !b
  {
    var index := if r.keyAttributesHaveIdenticalSupport then 0 else sceneNumber - 1;
    0 <= index < |r.supportedKeyAttributes| && HasBit(r.supportedKeyAttributes[index], key)
  }

  /** The little-endian value of a byte string. */
  function UIntLE(s: seq<Byte>): (r: nat)
  {
    if |s| == 0 then 0 else UIntLE(s[..|s| - 1]) + s[|s| - 1] * Pow256(|s| - 1)
  }

  lemma ShiftOfByte(x: Byte, j: nat)
    requires j < 3
    ensures Shl32(x, 8 * j) == x * Pow256(j)
  {
    if j == 1 {
      assert Pow2(8) == 256;
    } else if j == 2 {
      assert Pow2(8) == 256;
      assert Pow2(16) == 65536 by {
        assert Pow2(16) == 256 * Pow2(8) by { Pow2Add(8, 8); }
      }
    }
  }

  lemma {:induction false} Pow2Add(a: nat, b: nat)
    ensures Pow2(a + b) == Pow2(a) * Pow2(b)
  {
    if a > 0 {
      Pow2Add(a - 1, b);
    }
  }

  /**
   * With at most three bytes per mask no shift reaches bit 31, so each mask
   * is the little-endian value of its bytes.
   */
  lemma {:induction false} MaskIsLittleEndian(p: seq<Byte>, base: nat, m: nat)
    requires m <= 3 && base + m <= |p|
    ensures MaskSum(p, base, m) == UIntLE(p[base..base + m])
  {
    if m > 0 {
      MaskIsLittleEndian(p, base, m - 1);
      assert p[base..base + m][..m - 1] == p[base..base + m - 1];
      ShiftOfByte(p[base + m - 1], m - 1);
    }
  }

  /**
   * With the mask width the field encodes, scene s's key k is supported
   * exactly when bit k of the little-endian value of that scene's mask bytes
   * is set.
   */
  lemma SupportsKeyAttributeReadsSceneMask(p: seq<Byte>, sceneNumber: int, key: nat)
    requires key < 8 && |p| > 1 && !Flag(p[1], 0x01)
    requires 1 <= sceneNumber <= p[0]
    requires 3 + BitMaskBytes(p[1]) * sceneNumber <= |p|
    ensures var n := BitMaskBytes(p[1]);
            var base := 3 + n * (sceneNumber - 1);
            SupportsKeyAttribute(SupportedReportWith(p, n), sceneNumber, key)
            <==> HasBit(UIntLE(p[base..base + n]), key)
  {
    var n := BitMaskBytes(p[1]);
    var base := 3 + n * (sceneNumber - 1);
    assert base + n == 3 + n * sceneNumber;
    MaskIsLittleEndian(p, base, n);
  }

  /** A report that announces one mask byte per scene, for two scenes with masks 0x07 and 0x03. */
  const OneByteMasks: seq<Byte> := [0x02, 0x02, 0x00, 0x07, 0x03]

  /**
   * The unshifted width reads two bytes per mask: scene 1's mask swallows
   * scene 2's byte and scene 2's mask lies past the end, so key KeyPressed of
   * scene 2 reads as unsupported although its mask byte 0x03 has bit 0 set.
   */
  lemma SupportedReportWidthCounterexample()
    ensures SupportedReportWith(OneByteMasks, BitMaskBytesAsWritten(0x02)).supportedKeyAttributes == [0x0307, 0]
    ensures !SupportsKeyAttribute(SupportedReportWith(OneByteMasks, BitMaskBytesAsWritten(0x02)), 2, KeyPressed)
    ensures SupportedReportWith(OneByteMasks, BitMaskBytes(0x02)).supportedKeyAttributes == [0x07, 0x03]
    ensures SupportsKeyAttribute(SupportedReportWith(OneByteMasks, BitMaskBytes(0x02)), 2, KeyPressed)
  {
    var p := OneByteMasks;
    assert BitMaskBytesAsWritten(0x02) == 2 && BitMaskBytes(0x02) == 1;
    assert !Flag(0x02, 0x01);
    assert Entries(p) == 2;
    ShiftOfByte(0x07, 0);
    ShiftOfByte(0x03, 0);
    ShiftOfByte(0x03, 1);
    ShiftOfByte(0x00, 0);
    ShiftOfByte(0x00, 1);
    assert MaskSum(p, 3, 2) == 0x0307 by {
      assert MaskSum(p, 3, 1) == Shl32(0x07, 0);
    }
    assert MaskSum(p, 5, 2) == 0 by {
      assert MaskSum(p, 5, 1) == Shl32(0, 0);
    }
    assert MaskSum(p, 3, 1) == 0x07;
    assert MaskSum(p, 4, 1) == 0x03;
    var asWritten := SupportedReportWith(p, 2);
    assert asWritten.supportedKeyAttributes == [0x0307, 0];
    assert !HasBit(0, KeyPressed);
    var corrected := SupportedReportWith(p, 1);
    assert corrected.supportedKeyAttributes == [0x07, 0x03];
    assert HasBit(0x03, KeyPressed);
  }

  /** ConfigurationSet.serialize: one byte holding the slow-refresh flag in bit 7. */
  function SerializeConfigurationSet(slowRefresh: bool): (r: seq<Byte>)
    ensures |r| == 1
  {
    [if slowRefresh then 0x80 else 0]
  }

  /** A Configuration Set is never deserialized: the constructor throws. */
  function DeserializeConfigurationSet(p: seq<Byte>): (r: Result<bool, Thrown>)
    ensures r == Err(ZWaveError(Deserialization_NotImplemented))
  {
    Err(ZWaveError(Deserialization_NotImplemented))
  }

  /** The Configuration Report constructor: bit 7 of b0 (an empty payload reads false). */
  function ParseConfigurationReport(p: seq<Byte>): (slowRefresh: bool)
    ensures slowRefresh <==> |p| > 0 && p[0] >= 0x80
  {
    FlagHighBit(ByteOr0(p, 0));
    Flag(ByteOr0(p, 0), 0x80)
  }

  /** The slow-refresh flag survives a Configuration Set read back as a Configuration Report. */
  lemma ConfigurationRoundTrip(slowRefresh: bool)
    ensures ParseConfigurationReport(SerializeConfigurationSet(slowRefresh)) == slowRefresh
  {
  }
}
