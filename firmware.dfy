/**
 * Firmware file extraction: the dispatch on the file format and the Aeotec
 * updater container, an executable whose last 264 bytes hold the firmware
 * name (256 bytes, NUL-terminated) and the big-endian 32-bit start and length
 * of the firmware image inside it.
 *
 * The Intel HEX path is a wrapper around an external library and is a
 * parameter here.
 */
module Firmware {
  import opened Wrappers
  import opened Errors
  import opened Bytes
  import opened Text

  datatype FirmwareFileFormat = Aeotec | Otz | Ota | Hex

  datatype Firmware = Firmware(data: seq<Byte>, firmwareTarget: Option<nat>)

  const InvalidArgument: Thrown := ZWaveError(Argument_Invalid)

  /** The bytes the name field and the start/length trailer take at the end of the file. */
  const NameFieldLength: nat := 256
  const TrailerLength: nat := 8

  // ---------------------------------------------------------------------
  // The firmware name
  // ---------------------------------------------------------------------

  /** Buffer.indexOf(b): the first index holding b, or -1. */
  function IndexOf(p: seq<Byte>, b: Byte): (r: int)
    ensures -1 <= r < |p|
    ensures r >= 0 ==> p[r] == b && forall k :: 0 <= k < r ==> p[k] != b
    ensures r == -1 ==> forall k :: 0 <= k < |p| ==> p[k] != b
  {
    if p == [] then -1
    else if p[0] == b then 0
    else
      var rest := IndexOf(p[1..], b);
      if rest == -1 then -1 else 1 + rest
  }

  /** Buffer.slice(0, e): a negative end counts from the back. */
  function SliceTo(p: seq<Byte>, e: int): (r: seq<Byte>)
    ensures 0 <= e <= |p| ==> r == p[..e]
    ensures -|p| <= e < 0 ==> r == p[..|p| + e]
  {
    if e >= 0 then p[..if e <= |p| then e else |p|]
    else if |p| + e >= 0 then p[..|p| + e]
    else []
  }

  /**
   * The name bytes: the 256 bytes before the trailer, cut at the first NUL.
   * Without a NUL, indexOf answers -1 and the slice drops the last byte.
   */
  function NameBytes(data: seq<Byte>): (r: seq<Byte>)
    requires |data| >= NameFieldLength + TrailerLength
    ensures |r| < NameFieldLength
    ensures forall k :: 0 <= k < |r| ==> r[k] != 0
  {
    var field := data[|data| - 264..|data| - 8];
    SliceTo(field, IndexOf(field, 0))
  }

  /** A byte /^[a-zA-Z0-9_]+$/ accepts, as an ASCII code. */
  predicate IsNameByte(b: Byte) {
    'a' as int <= b <= 'z' as int || 'A' as int <= b <= 'Z' as int || '0' as int <= b <= '9' as int || b == '_' as int
  }

  predicate IsNameChar(c: char) {
    'a' <= c <= 'z' || 'A' <= c <= 'Z' || '0' <= c <= '9' || c == '_'
  }

  /**
   * The name bytes decoded as UTF-8 and tested against /^[a-zA-Z0-9_]+$/:
   * the name when the test passes, None when it fails. A byte below 0x80
   * decodes to the character with that code and a byte from 0x80 up never
   * decodes to an ASCII character, so the test passes exactly when the bytes
   * are one or more name characters.
   */
  function NameOf(b: seq<Byte>): (r: Option<string>)
    ensures r.Some? <==> |b| >= 1 && forall k :: 0 <= k < |b| ==> IsNameByte(b[k])
    ensures r.Some? ==> |r.value| == |b| && forall k :: 0 <= k < |b| ==> r.value[k] as int == b[k] && IsNameChar(r.value[k])
  {
    if |b| >= 1 && forall k :: 0 <= k < |b| ==> IsNameByte(b[k]) then
      Some(seq(|b|, k requires 0 <= k < |b| => b[k] as char))
    else None
  }

  /** The bytes of a name made of name characters (the inverse of NameOf). */
  function NameToBytes(name: string): (r: seq<Byte>)
    requires forall k :: 0 <= k < |name| ==> IsNameChar(name[k])
    ensures |r| == |name| && forall k :: 0 <= k < |r| ==> IsNameByte(r[k]) && r[k] != 0
  {
    seq(|name|, k requires 0 <= k < |name| => NameByte(name[k]))
  }

  function NameByte(c: char): (b: Byte)
    requires IsNameChar(c)
    ensures IsNameByte(b) && b != 0 && b == c as int
  {
    c as int
  }

  // ---------------------------------------------------------------------
  // The firmware target
  // ---------------------------------------------------------------------

  const ZwaveTag: string := "__TargetZwave__"
  const McuTag: string := "__TargetMcu"

  /** /__TargetMcu(\d)__/ matches at index i. */
  predicate McuMatchAt(name: string, i: int) {
    0 <= i && i + 14 <= |name| && name[i..i + 11] == McuTag && IsDigit(name[i + 11]) && name[i + 12..i + 14] == "__"
  }

  /** The leftmost index from i on where the MCU pattern matches, as RegExp.exec finds it. */
  function FirstMcuMatch(name: string, i: nat): (r: Option<nat>)
    ensures r.Some? ==> i <= r.value && McuMatchAt(name, r.value)
                        && forall j :: i <= j < r.value ==> !McuMatchAt(name, j)
    ensures r.None? ==> forall j :: i <= j ==> !McuMatchAt(name, j)
    decreases |name| - i
  {
    if i + 14 > |name| then None
    else if McuMatchAt(name, i) then Some(i)
    else FirstMcuMatch(name, i + 1)
  }

  /**
   * The firmware target the name selects: 0 for the Z-Wave chip when it
   * contains __TargetZwave__, else the digit of the first __TargetMcu<d>__,
   * else none.
   */
  function Target(name: string): (r: Option<nat>)
    ensures Contains(name, ZwaveTag) ==> r == Some(0)
    ensures !Contains(name, ZwaveTag) ==>
              (r.None? <==> forall j :: 0 <= j ==> !McuMatchAt(name, j))
    ensures !Contains(name, ZwaveTag) && r.Some? ==>
              exists i :: McuMatchAt(name, i) && r.value == DigitValue(name[i + 11])
                          && forall j :: 0 <= j < i ==> !McuMatchAt(name, j)
    ensures r.Some? ==> r.value < 10
  {
    if Contains(name, ZwaveTag) then Some(0)
    else match FirstMcuMatch(name, 0)
      case None => None
      case Some(i) => Some(DigitValue(name[i + 11]))
  }

  /** The tag __TargetMcu<d>__ for the digit d. */
  function McuTagFor(d: nat): (r: string)
    requires d < 10
    ensures |r| == 14
  {
    McuTag + [DigitChar(d)] + "__"
  }

  /**
   * A name that starts with __TargetMcu<d>__ and does not mention the
   * Z-Wave chip selects MCU d.
   */
  lemma McuTargetRoundTrip(d: nat, suffix: string)
    requires d < 10
    requires !Contains(McuTagFor(d) + suffix, ZwaveTag)
    ensures Target(McuTagFor(d) + suffix) == Some(d)
  {
    var name := McuTagFor(d) + suffix;
    assert name[..11] == McuTag && name[11] == DigitChar(d) && name[12..14] == "__";
    assert McuMatchAt(name, 0);
  }

  // ---------------------------------------------------------------------
  // Extraction
  // ---------------------------------------------------------------------

  /** The start and length fields of the trailer. */
  function FirmwareStart(data: seq<Byte>): nat
    requires |data| >= TrailerLength
  {
    UIntBE(data[|data| - 8..|data| - 4])
  }

  function FirmwareLength(data: seq<Byte>): nat
    requires |data| >= TrailerLength
  {
    UIntBE(data[|data| - 4..])
  }

  /** The container is well formed: an executable, the image before the name field, a valid name. */
  predicate IsAeotecUpdater(data: seq<Byte>) {
    |data| >= 2 && data[0] == 0x4d && data[1] == 0x5a
    && |data| >= NameFieldLength + TrailerLength
    && FirmwareStart(data) + FirmwareLength(data) <= |data| - 264
    && NameOf(NameBytes(data)).Some?
  }

  /**
   * extractFirmwareAeotec. Reading the magic number from fewer than two
   * bytes, or the trailer from fewer than eight, throws a RangeError; a file
   * that is not an executable, whose image overlaps the name field or whose
   * name fails the test throws Argument_Invalid.
   */
  function ExtractFirmwareAeotec(data: seq<Byte>): (r: Result<Firmware, Thrown>)
    ensures r.Ok? <==> IsAeotecUpdater(data)
    ensures |data| < 2 ==> r == Err(RangeError)
    ensures |data| >= 2 && (data[0] != 0x4d || data[1] != 0x5a) ==> r == Err(InvalidArgument)
    ensures r.Err? && |data| >= 8 ==> r == Err(InvalidArgument)
    ensures r.Ok? ==> r.value.data == data[FirmwareStart(data)..FirmwareStart(data) + FirmwareLength(data)]
                      && r.value.firmwareTarget == Target(NameOf(NameBytes(data)).value)
  {
    if |data| < 2 then Err(RangeError)
    else if UIntBE(data[..2]) != 0x4d5a then
      MagicNumber(data);
      Err(InvalidArgument)
    else if |data| < 8 then
      MagicNumber(data);
      Err(RangeError)
    else
      MagicNumber(data);
      var start := FirmwareStart(data);
      var length := FirmwareLength(data);
      if start + length > |data| - 264 then Err(InvalidArgument)
      else match NameOf(NameBytes(data))
        case None => Err(InvalidArgument)
        case Some(name) => Ok(Firmware(data[start..start + length], Target(name)))
  }

  /** readUInt16BE(0): the first byte is the high one. */
  lemma MagicNumber(data: seq<Byte>)
    requires |data| >= 2
    ensures UIntBE(data[..2]) == (data[0] as int) * 256 + data[1] as int
  {
    assert data[..2][..1] == [data[0]];
  }

  /** extractFirmware: the Aeotec extractor for "aeotec", the HEX extractor for the rest. */
  function ExtractFirmware(data: seq<Byte>, format: FirmwareFileFormat,
                           extractHex: seq<Byte> -> Result<Firmware, Thrown>): (r: Result<Firmware, Thrown>)
    ensures format == Aeotec ==> (r.Ok? <==> IsAeotecUpdater(data))
    ensures format != Aeotec ==> r == extractHex(data)
  {
    match format
    case Aeotec => ExtractFirmwareAeotec(data)
    case Otz => extractHex(data)
    case Ota => extractHex(data)
    case Hex => extractHex(data)
  }

  // ---------------------------------------------------------------------
  // Building a container
  // ---------------------------------------------------------------------

  /** The 256-byte name field: the name, then NUL padding. */
  function NameField(name: string): (r: seq<Byte>)
    requires |name| < NameFieldLength && forall k :: 0 <= k < |name| ==> IsNameChar(name[k])
    ensures |r| == NameFieldLength
  {
    NameToBytes(name) + seq(NameFieldLength - |name|, _ => 0)
  }

  /**
   * An updater laid out as the tool expects: the executable's own bytes, the
   * firmware image, the name field, then the image's start and length.
   */
  function Pack(exe: seq<Byte>, image: seq<Byte>, name: string): (r: seq<Byte>)
    requires |exe| < Pow256(4) && |image| < Pow256(4)
    requires |name| < NameFieldLength && forall k :: 0 <= k < |name| ==> IsNameChar(name[k])
    ensures |r| == |exe| + |image| + NameFieldLength + TrailerLength
  {
    exe + image + NameField(name) + EncodeUIntBE(|exe|, 4) + EncodeUIntBE(|image|, 4)
  }

  /** The first NUL of a name field ends the name. */
  lemma NameFieldEndsName(name: string)
    requires |name| < NameFieldLength && forall k :: 0 <= k < |name| ==> IsNameChar(name[k])
    ensures IndexOf(NameField(name), 0) == |name|
    ensures NameField(name)[..|name|] == NameToBytes(name)
  {
    var field := NameField(name);
    assert field[|name|] == 0;
    assert forall k :: 0 <= k < |name| ==> field[k] == NameToBytes(name)[k];
  }

  /** The name of a packed updater is read back from its name field. */
  lemma NameBytesOfPack(exe: seq<Byte>, image: seq<Byte>, name: string)
    requires |exe| < Pow256(4) && |image| < Pow256(4)
    requires |name| < NameFieldLength && forall k :: 0 <= k < |name| ==> IsNameChar(name[k])
    ensures NameBytes(Pack(exe, image, name)) == NameToBytes(name)
  {
    var data := Pack(exe, image, name);
    var front := exe + image;
    var trailer := EncodeUIntBE(|exe|, 4) + EncodeUIntBE(|image|, 4);
    assert data == front + NameField(name) + trailer;
    assert data[|data| - 264..|data| - 8] == NameField(name);
    NameFieldEndsName(name);
  }

  /**
   * Packing an image under a valid name into an executable and extracting
   * it gives back the image and the target the name selects.
   */
  lemma PackRoundTrip(exe: seq<Byte>, image: seq<Byte>, name: string)
    requires |exe| >= 2 && exe[0] == 0x4d && exe[1] == 0x5a
    requires |exe| < Pow256(4) && |image| < Pow256(4)
    requires 1 <= |name| < NameFieldLength && forall k :: 0 <= k < |name| ==> IsNameChar(name[k])
    ensures ExtractFirmwareAeotec(Pack(exe, image, name)) == Ok(Firmware(image, Target(name)))
  {
    var data := Pack(exe, image, name);
    var n := |data|;
    assert data[n - 8..n - 4] == EncodeUIntBE(|exe|, 4);
    assert data[n - 4..] == EncodeUIntBE(|image|, 4);
    UIntBERoundTrip(|exe|, 4);
    UIntBERoundTrip(|image|, 4);
    assert FirmwareStart(data) == |exe| && FirmwareLength(data) == |image|;
    assert data[|exe|..|exe| + |image|] == image;
    assert data[0] == 0x4d && data[1] == 0x5a;
    NameBytesOfPack(exe, image, name);
    var b := NameToBytes(name);
    assert NameOf(b).Some?;
    assert NameOf(b).value == name;
  }

  /**
   * With no NUL in the name field, indexOf gives -1 and the name is the
   * first 255 bytes: the last one is dropped.
   */
  lemma UnterminatedNameDropsLastByte(data: seq<Byte>)
    requires |data| >= NameFieldLength + TrailerLength
    requires forall k :: |data| - 264 <= k < |data| - 8 ==> data[k] != 0
    ensures NameBytes(data) == data[|data| - 264..|data| - 9]
  {
    var field := data[|data| - 264..|data| - 8];
    assert forall k :: 0 <= k < |field| ==> field[k] == data[|data| - 264 + k];
    assert IndexOf(field, 0) == -1;
  }
}
