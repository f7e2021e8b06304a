/**
 * The Node Naming and Location command class: the ASCII test, the Name Set
 * and Location Set serializers, the Name Report and Location Report parsers,
 * the argument checks of the value-setting API and which commands are
 * supported.
 *
 * Names and locations are JavaScript strings, that is sequences of UTF-16
 * code units. The two text fields share one layout: a marker byte (0x00 for
 * ASCII, 0x02 for UTF-16) followed by the text, UTF-16 in big-endian order.
 */
module NodeNamingCC {
  import opened Wrappers
  import opened Errors
  import opened Bytes

  /** A UTF-16 code unit, the element of a JavaScript string. */
  type CodeUnit = u: int | 0 <= u < 0x10000

  datatype NodeNamingCommand =
    | NameSet | NameGet | NameReport | LocationSet | LocationGet | LocationReport

  /**
   * supportsCommand: Name Get and Location Get always; None leaves the answer
   * to the API base, which is not part of this model.
   */
  function SupportsCommand(cmd: NodeNamingCommand): (r: Option<bool>)
    ensures r == Some(true) <==> cmd == NameGet || cmd == LocationGet
    ensures r != Some(true) ==> r == None
  {
    match cmd
    case NameGet => Some(true)
    case LocationGet => Some(true)
    case _ => None
  }

  /** isASCII: the whole string matches /^[\x00-\x7F]*$/. */
  predicate IsAscii(s: seq<CodeUnit>) {
    forall i :: 0 <= i < |s| ==> s[i] <= 0x7f
  }

  /** The ASCII test scans the string front to back, as the anchored regular expression does. */
  function MatchesAsciiPattern(s: seq<CodeUnit>): (r: bool)
    ensures r <==> IsAscii(s)
  {
    if s == [] then true
    else
      assert forall i :: 1 <= i < |s| ==> s[1..][i - 1] == s[i];
      s[0] <= 0x7f && MatchesAsciiPattern(s[1..])
  }

  /** Buffer.from(s, "ascii"): one byte per code unit, its low byte. */
  function AsciiBytes(s: seq<CodeUnit>): (r: seq<Byte>)
    ensures |r| == |s|
  {
    seq(|s|, i requires 0 <= i < |s| => s[i] % 256)
  }

  /** Buffer.from(s, "utf16le") followed by swap16: two bytes per code unit, high byte first. */
  function Utf16BEBytes(s: seq<CodeUnit>): (r: seq<Byte>)
    ensures |r| == 2 * |s|
  {
    seq(2 * |s|, i requires 0 <= i < 2 * |s| => if i % 2 == 0 then s[i / 2] / 256 else s[i / 2] % 256)
  }

  /** toString("ascii"): every byte with its high bit cleared. */
  function DecodeAscii(b: seq<Byte>): (r: seq<CodeUnit>)
    ensures |r| == |b|
  {
    seq(|b|, i requires 0 <= i < |b| => b[i] % 0x80)
  }

  /** swap16 followed by toString("utf16le"): one code unit per byte pair, high byte first. */
  function DecodeUtf16BE(b: seq<Byte>): (r: seq<CodeUnit>)
    requires |b| % 2 == 0
    ensures |r| == |b| / 2
  {
    seq(|b| / 2, i requires 0 <= i < |b| / 2 => (b[2 * i] as int) * 256 + b[2 * i + 1] as int)
  }

  lemma AsciiRoundTrip(s: seq<CodeUnit>)
    requires IsAscii(s)
    ensures DecodeAscii(AsciiBytes(s)) == s
  {
    assert forall i :: 0 <= i < |s| ==> DecodeAscii(AsciiBytes(s))[i] == s[i];
  }

  lemma Utf16RoundTrip(s: seq<CodeUnit>)
    ensures DecodeUtf16BE(Utf16BEBytes(s)) == s
  {
    var b := Utf16BEBytes(s);
    forall i | 0 <= i < |s|
      ensures DecodeUtf16BE(b)[i] == s[i]
    {
      assert b[2 * i] == s[i] / 256 && b[2 * i + 1] == s[i] % 256;
    }
  }

  /** The marker byte serialize writes: 0x00 for an ASCII string, 0x02 for UTF-16. */
  function Marker(s: seq<CodeUnit>): (r: Byte)
    ensures r == 0 <==> IsAscii(s)
    ensures r == 0 || r == 2
  {
    if MatchesAsciiPattern(s) then 0 else 2
  }

  /** The text's bytes in the encoding serialize chooses. */
  function Encoded(s: seq<CodeUnit>): (r: seq<Byte>)
    ensures IsAscii(s) ==> r == AsciiBytes(s)
    ensures !IsAscii(s) ==> r == Utf16BEBytes(s)
  {
    if MatchesAsciiPattern(s) then AsciiBytes(s) else Utf16BEBytes(s)
  }

  /** How many bytes the copy takes: all of them, but at most 16. */
  function CopiedLength(s: seq<CodeUnit>): nat {
    Min(16, |Encoded(s)|)
  }

  /** How many code units fit into 16 bytes in the chosen encoding. */
  function Capacity(s: seq<CodeUnit>): (r: nat)
    ensures IsAscii(s) ==> r == 16
    ensures !IsAscii(s) ==> r == 8
  {
    if MatchesAsciiPattern(s) then 16 else 8
  }

  /**
   * The Name Report and Location Report constructors: UTF-16 when byte 0 is
   * 2, ASCII otherwise, decoding the bytes after byte 0. swap16 throws a
   * RangeError on an odd number of bytes.
   */
  function ParseTextReport(payload: seq<Byte>): (r: Result<seq<CodeUnit>, Thrown>)
    ensures r.Err? <==> At(payload, 0) == Some(2) && |payload| % 2 == 0
    ensures r.Err? ==> r.error == RangeError
    ensures r.Ok? && At(payload, 0) == Some(2) ==> r.value == DecodeUtf16BE(payload[1..])
    ensures r.Ok? && At(payload, 0) != Some(2) ==> r.value == DecodeAscii(Drop(payload, 1))
  {
    if At(payload, 0) == Some(2) then
      var text := payload[1..];
      if |text| % 2 == 1 then Err(RangeError) else Ok(DecodeUtf16BE(text))
    else
      Ok(DecodeAscii(Drop(payload, 1)))
  }

  /** A received Name Set or Location Set is never deserialized: the constructor throws. */
  function DeserializeTextSet(payload: seq<Byte>): (r: Result<seq<CodeUnit>, Thrown>)
    ensures r == Err(ZWaveError(Deserialization_NotImplemented))
  {
    Err(ZWaveError(Deserialization_NotImplemented))
  }

  /**
   * The payload Name Set and Location Set serialize builds as written: the
   * buffer of 1 + |encoded| bytes comes from allocUnsafe (its old contents
   * are `stale`), the marker goes to byte 0, and then up to 16 encoded bytes
   * are copied to target offset 0, over the marker.
   */
  function AsWrittenPayload(s: seq<CodeUnit>, stale: seq<Byte>): (r: seq<Byte>)
    requires |stale| == 1 + |Encoded(s)|
    ensures |r| == |stale|
  {
    var k := CopiedLength(s);
    Encoded(s)[..k] + stale[0 := Marker(s)][k..]
  }

  /** Name Set and Location Set serialize, in place over the allocated buffer, as written. */
  method SerializeTextSetAsWritten(s: seq<CodeUnit>, stale: seq<Byte>) returns (payload: seq<Byte>)
    requires |stale| == 1 + |Encoded(s)|
    ensures payload == AsWrittenPayload(s, stale)
  {
    var marker := Marker(s);
    var encoded := Encoded(s);
    var k := CopiedLength(s);
    var buffer := new Byte[|stale|](i requires 0 <= i < |stale| => stale[i]);
    buffer[0] := marker;
    ghost var marked := stale[0 := marker];
    var i := 0;
    while i < k
      invariant 0 <= i <= k
      invariant forall j :: 0 <= j < buffer.Length ==>
                  buffer[j] == if 0 <= j < i then encoded[..k][j] else marked[j]
    {
      buffer[i] := encoded[i];
      i := i + 1;
    }
    payload := buffer[..];
    Spliced(marked, payload, 0, encoded[..k]);
    assert marked[..0] == [];
  }

  /** As written, byte 0 of the payload holds the first encoded byte, not the marker. */
  lemma MarkerOverwritten(s: seq<CodeUnit>, stale: seq<Byte>)
    requires |stale| == 1 + |Encoded(s)| && s != []
    ensures AsWrittenPayload(s, stale)[0] == Encoded(s)[0]
  {
    assert |Encoded(s)| >= 1;
  }

  /**
   * As written, an ASCII name whose first two characters differ never reads
   * back, whatever the buffer held: byte 0 becomes the first character, so
   * the report parser starts reading at the second one.
   */
  lemma TextSetOverwritesMarker(s: seq<CodeUnit>, stale: seq<Byte>)
    requires IsAscii(s) && |s| >= 2 && s[0] != s[1]
    requires |stale| == 1 + |Encoded(s)|
    ensures ParseTextReport(AsWrittenPayload(s, stale)) != Ok(s)
  {
    var p := AsWrittenPayload(s, stale);
    assert p[0] == s[0] && p[1] == s[1];
    assert DecodeAscii(Drop(p, 1))[0] == s[1];
  }

  /** "AB" is such a name. */
  lemma TextSetCounterexample(stale: seq<Byte>)
    requires |stale| == 3
    ensures ParseTextReport(AsWrittenPayload([0x41, 0x42], stale)) != Ok([0x41, 0x42])
  {
    var s: seq<CodeUnit> := [0x41, 0x42];
    assert IsAscii(s);
    TextSetOverwritesMarker(s, stale);
  }

  /** The payload with the marker kept at byte 0 and at most 16 encoded bytes after it. */
  function TextSetPayload(s: seq<CodeUnit>): (r: seq<Byte>)
    ensures |r| == 1 + CopiedLength(s) && r[0] == Marker(s)
  {
    [Marker(s)] + Encoded(s)[..CopiedLength(s)]
  }

  /**
   * The corrected layout reads back: the Name Report or Location Report parser
   * returns the text, cut to the 16 characters (ASCII) or 8 characters
   * (UTF-16) that fit into 16 bytes.
   */
  lemma TextSetRoundTrip(s: seq<CodeUnit>)
    ensures ParseTextReport(TextSetPayload(s)) == Ok(s[..Min(|s|, Capacity(s))])
  {
    var p := TextSetPayload(s);
    var t := s[..Min(|s|, Capacity(s))];
    if IsAscii(s) {
      assert IsAscii(t);
      assert p[1..] == AsciiBytes(t);
      AsciiRoundTrip(t);
    } else {
      assert p[1..] == Utf16BEBytes(t);
      Utf16RoundTrip(t);
    }
  }

  /**
   * Name Set and Location Set serialize with the copy going to target offset
   * 1, after the marker, and the buffer sized to what is copied.
   */
  method SerializeTextSet(s: seq<CodeUnit>) returns (payload: seq<Byte>)
    ensures payload == TextSetPayload(s)
    ensures ParseTextReport(payload) == Ok(s[..Min(|s|, Capacity(s))])
  {
    var encoded := Encoded(s);
    var k := Min(16, |encoded|);
    var buffer := new Byte[1 + k];
    buffer[0] := Marker(s);
    var i := 0;
    while i < k
      invariant 0 <= i <= k
      invariant buffer[0] == Marker(s)
      invariant buffer[1..1 + i] == encoded[..i]
    {
      buffer[1 + i] := encoded[i];
      i := i + 1;
      assert buffer[1..1 + i] == buffer[1..i] + [encoded[i - 1]];
    }
    payload := buffer[..];
    assert payload == [buffer[0]] + buffer[1..1 + k];
    TextSetRoundTrip(s);
  }

  /** The property the value-setting API is called with. */
  datatype Property = NameProperty | LocationProperty | OtherProperty(name: string)

  /** The value it is called with: a string, or anything else by its typeof. */
  datatype Value = StringValue(text: seq<CodeUnit>) | OtherValue(typeOf: string)

  /** The commands the value-setting API sends: the Set, then a Get that refreshes the value. */
  datatype ApiCall = SetName(name: seq<CodeUnit>) | GetName | SetLocation(location: seq<CodeUnit>) | GetLocation

  datatype SetValueError = UnsupportedProperty | WrongValueType(expected: string, got: string)

  /**
   * SET_VALUE: any property other than name or location is unsupported, a
   * value that is not a string has the wrong type; otherwise the matching Set
   * is sent and the value read back with the matching Get.
   */
  function SetValue(property: Property, value: Value): (r: Result<seq<ApiCall>, SetValueError>)
    ensures r.Ok? <==> !property.OtherProperty? && value.StringValue?
    ensures property.OtherProperty? ==> r == Err(UnsupportedProperty)
    ensures !property.OtherProperty? && value.OtherValue? ==> r == Err(WrongValueType("string", value.typeOf))
    ensures r.Ok? && property == NameProperty ==> r.value == [SetName(value.text), GetName]
    ensures r.Ok? && property == LocationProperty ==> r.value == [SetLocation(value.text), GetLocation]
  {
    if property.OtherProperty? then Err(UnsupportedProperty)
    else if value.OtherValue? then Err(WrongValueType("string", value.typeOf))
    else if property == NameProperty then Ok([SetName(value.text), GetName])
    else Ok([SetLocation(value.text), GetLocation])
  }
}
