/**
 * The Version command class: which commands a version supports, the version
 * strings its reports carry, the Report, Command Class Report, Capabilities
 * Report and Z-Wave Software Report parsers and the Command Class Get
 * serializer.
 *
 * Bytes past the end of a payload read as JavaScript's `undefined`: a
 * template literal writes them as "undefined", a bit operation or a loop
 * bound takes them as 0, and a stored field keeps them as None.
 */
module VersionCC {
  import opened Wrappers
  import opened Errors
  import opened Bytes
  import opened Text

  datatype VersionCommand =
    | Get | Report | CommandClassGet | CommandClassReport
    | CapabilitiesGet | CapabilitiesReport | ZWaveSoftwareGet | ZWaveSoftwareReport

  /**
   * supportsCommand: Get and Command Class Get always, Capabilities Get from
   * version 3; None leaves the answer to the command class base, which is not
   * part of this model.
   */
  function SupportsCommand(cmd: VersionCommand, version: nat): (r: Option<bool>)
    ensures (cmd == Get || cmd == CommandClassGet) ==> r == Some(true)
    ensures cmd == CapabilitiesGet ==> r == Some(version >= 3)
    ensures r.None? <==> cmd !in {Get, CommandClassGet, CapabilitiesGet}
  {
    match cmd
    case Get => Some(true)
    case CommandClassGet => Some(true)
    case CapabilitiesGet => Some(version >= 3)
    case _ => None
  }

  /** A payload byte inside a template literal: its decimal digits, or "undefined" past the end. */
  function ByteText(p: seq<Byte>, i: nat): (r: string)
    ensures i < |p| ==> r == Decimal(p[i]) && AllDigits(r)
    ensures i >= |p| ==> r == "undefined"
  {
    if i < |p| then Decimal(p[i]) else "undefined"
  }

  /** Two payload bytes written "a.b". */
  function ByteDotted(p: seq<Byte>, i: nat, j: nat): string {
    Dotted(ByteText(p, i), ByteText(p, j))
  }

  /** No character of `s` is a dot. */
  predicate NoDot(s: string) {
    forall k :: 0 <= k < |s| ==> s[k] != '.'
  }

  /** A joined string holds a dot, so it is never a word without one. */
  lemma DottedHasDot(x: string, y: string, w: string)
    requires NoDot(w)
    ensures Dotted(x, y) != w
  {
    assert Dotted(x, y)[|x|] == '.';
  }

  /**
   * parseVersion: "unused" when the first three bytes are all 0, otherwise
   * the three bytes written "a.b.c".
   */
  function ParseVersion(b: seq<Byte>): (r: string)
    ensures r == "unused" <==> |b| >= 3 && b[0] == 0 && b[1] == 0 && b[2] == 0
    ensures r != "unused" ==> r == Dotted(ByteText(b, 0), ByteDotted(b, 1, 2))
  {
    if |b| >= 3 && b[0] == 0 && b[1] == 0 && b[2] == 0 then "unused"
    else
      assert NoDot("unused");
      DottedHasDot(ByteText(b, 0), ByteDotted(b, 1, 2), "unused");
      Dotted(ByteText(b, 0), ByteDotted(b, 1, 2))
  }

  /** A three-part version as the Z-Wave Software Report carries it. */
  datatype SoftwareVersion = SoftwareVersion(major: Byte, minor: Byte, patch: Byte)

  predicate Unused(v: SoftwareVersion) {
    v.major == 0 && v.minor == 0 && v.patch == 0
  }

  function SoftwareVersionBytes(v: SoftwareVersion): (r: seq<Byte>)
    ensures |r| == 3
  {
    [v.major, v.minor, v.patch]
  }

  /** The text a version stands for: "unused" for 0.0.0, "major.minor.patch" otherwise. */
  function SoftwareVersionText(v: SoftwareVersion): string {
    if Unused(v) then "unused"
    else Dotted(Decimal(v.major), Dotted(Decimal(v.minor), Decimal(v.patch)))
  }

  /** parseVersion reads a version's three bytes, whatever follows them, as its text. */
  lemma ParseVersionReadsText(v: SoftwareVersion, rest: seq<Byte>)
    ensures ParseVersion(SoftwareVersionBytes(v) + rest) == SoftwareVersionText(v)
  {
    var b := SoftwareVersionBytes(v) + rest;
    assert b[0] == v.major && b[1] == v.minor && b[2] == v.patch;
  }

  /** parseVersion tells every two distinct three-byte versions apart. */
  lemma ParseVersionInjective(p: seq<Byte>, q: seq<Byte>)
    requires |p| >= 3 && |q| >= 3
    requires ParseVersion(p) == ParseVersion(q)
    ensures p[..3] == q[..3]
  {
    if ParseVersion(p) != "unused" {
      SplitAtDot(ByteText(p, 0), ByteDotted(p, 1, 2), ByteText(q, 0), ByteDotted(q, 1, 2));
      DecimalInjective(p[0], q[0]);
      DottedDecimalInjective(p[1], p[2], q[1], q[2]);
    }
  }

  /** A two-part version as the Report carries them. */
  datatype MajorMinor = MajorMinor(major: Byte, minor: Byte)

  function MajorMinorText(v: MajorMinor): string {
    Dotted(Decimal(v.major), Decimal(v.minor))
  }

  function MajorMinorTexts(vs: seq<MajorMinor>): (r: seq<string>)
    ensures |r| == |vs|
    ensures forall i :: 0 <= i < |vs| ==> r[i] == MajorMinorText(vs[i])
  {
    if vs == [] then [] else MajorMinorTexts(vs[..|vs| - 1]) + [MajorMinorText(vs[|vs| - 1])]
  }

  datatype VersionReport = VersionReport(
    libraryType: Option<Byte>,
    protocolVersion: string,
    firmwareVersions: seq<string>,
    hardwareVersion: Option<Byte>)

  /** The first n additional firmware versions of a Report, pair i at bytes 7 + 2i and 8 + 2i. */
  function AdditionalFirmwareVersions(p: seq<Byte>, n: nat): (r: seq<string>)
    ensures |r| == n
  {
    seq(n, i requires 0 <= i < n => ByteDotted(p, 7 + 2 * i, 8 + 2 * i))
  }

  /**
   * The Report constructor: library type at byte 0, protocol version from
   * bytes 1 and 2, first firmware version from bytes 3 and 4; from version 2
   * on the hardware version at byte 5 and as many further firmware versions
   * as byte 6 says, appended in order.
   */
  method ParseReport(payload: seq<Byte>, version: nat) returns (r: VersionReport)
    ensures r.libraryType == At(payload, 0)
    ensures r.protocolVersion == ByteDotted(payload, 1, 2)
    ensures version < 2 ==> r.firmwareVersions == [ByteDotted(payload, 3, 4)] && r.hardwareVersion == None
    ensures version >= 2 ==> r.hardwareVersion == At(payload, 5)
    ensures version >= 2 ==> r.firmwareVersions == [ByteDotted(payload, 3, 4)] + AdditionalFirmwareVersions(payload, ByteOr0(payload, 6))
    ensures version >= 2 ==> |r.firmwareVersions| == 1 + ByteOr0(payload, 6)
    ensures version >= 2 ==> forall i :: 0 <= i < ByteOr0(payload, 6) ==>
              r.firmwareVersions[1 + i] == ByteDotted(payload, 7 + 2 * i, 8 + 2 * i)
  {
    var firmwareVersions := [ByteDotted(payload, 3, 4)];
    var hardwareVersion := None;
    if version >= 2 {
      hardwareVersion := At(payload, 5);
      var additionalFirmwares: nat := ByteOr0(payload, 6);
      var i: nat := 0;
      while i < additionalFirmwares
        invariant 0 <= i <= additionalFirmwares
        invariant firmwareVersions == [ByteDotted(payload, 3, 4)] + AdditionalFirmwareVersions(payload, i)
      {
        firmwareVersions := firmwareVersions + [ByteDotted(payload, 7 + 2 * i, 8 + 2 * i)];
        AdditionalVersionsStep(payload, i);
        i := i + 1;
      }
      AdditionalVersionsAt(ByteDotted(payload, 3, 4), payload, additionalFirmwares);
    }
    r := VersionReport(At(payload, 0), ByteDotted(payload, 1, 2), firmwareVersions, hardwareVersion);
  }

  /** Behind the first firmware version, entry 1 + i is additional version i, from bytes 7 + 2i and 8 + 2i. */
  lemma AdditionalVersionsAt(first: string, p: seq<Byte>, n: nat)
    ensures forall i :: 0 <= i < n ==>
              ([first] + AdditionalFirmwareVersions(p, n))[1 + i] == ByteDotted(p, 7 + 2 * i, 8 + 2 * i)
  {
    var vs := AdditionalFirmwareVersions(p, n);
    forall i | 0 <= i < n
      ensures ([first] + vs)[1 + i] == ByteDotted(p, 7 + 2 * i, 8 + 2 * i)
    {
      assert ([first] + vs)[1 + i] == vs[i];
    }
  }

  /** One more additional version is the one from bytes 7 + 2i and 8 + 2i, behind the first i. */
  lemma AdditionalVersionsStep(p: seq<Byte>, i: nat)
    ensures AdditionalFirmwareVersions(p, i + 1)
            == AdditionalFirmwareVersions(p, i) + [ByteDotted(p, 7 + 2 * i, 8 + 2 * i)]
  {
    var prev := AdditionalFirmwareVersions(p, i);
    var next := AdditionalFirmwareVersions(p, i + 1);
    assert forall k :: 0 <= k < i ==> next[k] == prev[k];
  }

  /** The major/minor pairs of a version list, two bytes each. */
  function PairBytes(vs: seq<MajorMinor>): (r: seq<Byte>)
    ensures |r| == 2 * |vs|
  {
    if vs == [] then [] else PairBytes(vs[..|vs| - 1]) + [vs[|vs| - 1].major, vs[|vs| - 1].minor]
  }

  lemma {:induction false} PairBytesAt(vs: seq<MajorMinor>, i: nat)
    requires i < |vs|
    ensures PairBytes(vs)[2 * i] == vs[i].major && PairBytes(vs)[2 * i + 1] == vs[i].minor
  {
    if i < |vs| - 1 {
      PairBytesAt(vs[..|vs| - 1], i);
    }
  }

  /** A Report payload carrying the given fields, laid out as the constructor reads them. */
  function EncodeReport(libraryType: Byte, protocol: MajorMinor, firmwares: seq<MajorMinor>, hardware: Byte): (r: seq<Byte>)
    requires 1 <= |firmwares| <= 256
    ensures |r| == 5 + 2 * |firmwares|
  {
    [libraryType, protocol.major, protocol.minor, firmwares[0].major, firmwares[0].minor,
     hardware, |firmwares| - 1] + PairBytes(firmwares[1..])
  }

  /** Bytes i and j of p hold the two parts of v. */
  predicate CarriesAt(p: seq<Byte>, i: nat, j: nat, v: MajorMinor) {
    i < |p| && j < |p| && p[i] == v.major && p[j] == v.minor
  }

  lemma ByteDottedReadsText(p: seq<Byte>, i: nat, j: nat, v: MajorMinor)
    requires CarriesAt(p, i, j, v)
    ensures ByteDotted(p, i, j) == MajorMinorText(v)
  {
  }

  /** The additional versions vs sit pairwise from byte 7 of p. */
  predicate CarriesAdditional(p: seq<Byte>, vs: seq<MajorMinor>) {
    forall i :: 0 <= i < |vs| ==> CarriesAt(p, 7 + 2 * i, 8 + 2 * i, vs[i])
  }

  /** The first n additional versions read from a payload that carries vs are the texts of vs's first n. */
  lemma AdditionalVersionsRoundTrip(p: seq<Byte>, vs: seq<MajorMinor>, n: nat)
    requires CarriesAdditional(p, vs) && n <= |vs|
    ensures AdditionalFirmwareVersions(p, n) == MajorMinorTexts(vs[..n])
  {
    forall i | 0 <= i < n
      ensures AdditionalFirmwareVersions(p, n)[i] == MajorMinorTexts(vs[..n])[i]
    {
      ByteDottedReadsText(p, 7 + 2 * i, 8 + 2 * i, vs[i]);
    }
  }

  lemma EncodeReportCarries(libraryType: Byte, protocol: MajorMinor, firmwares: seq<MajorMinor>, hardware: Byte)
    requires 1 <= |firmwares| <= 256
    ensures var p := EncodeReport(libraryType, protocol, firmwares, hardware);
            p[0] == libraryType && p[5] == hardware && p[6] == |firmwares| - 1
            && CarriesAt(p, 1, 2, protocol) && CarriesAt(p, 3, 4, firmwares[0])
            && CarriesAdditional(p, firmwares[1..])
  {
    var p := EncodeReport(libraryType, protocol, firmwares, hardware);
    var rest := firmwares[1..];
    forall i | 0 <= i < |rest|
      ensures CarriesAt(p, 7 + 2 * i, 8 + 2 * i, rest[i])
    {
      PairBytesAt(rest, i);
    }
  }

  /**
   * Everything a version 2 Report carries reads back: the library type, the
   * protocol version text, every firmware version text in order and the
   * hardware version.
   */
  lemma ReportRoundTrip(libraryType: Byte, protocol: MajorMinor, firmwares: seq<MajorMinor>, hardware: Byte)
    requires 1 <= |firmwares| <= 256
    ensures var p := EncodeReport(libraryType, protocol, firmwares, hardware);
            At(p, 0) == Some(libraryType)
            && ByteDotted(p, 1, 2) == MajorMinorText(protocol)
            && At(p, 5) == Some(hardware)
            && [ByteDotted(p, 3, 4)] + AdditionalFirmwareVersions(p, ByteOr0(p, 6)) == MajorMinorTexts(firmwares)
  {
    var p := EncodeReport(libraryType, protocol, firmwares, hardware);
    EncodeReportCarries(libraryType, protocol, firmwares, hardware);
    ByteDottedReadsText(p, 1, 2, protocol);
    ByteDottedReadsText(p, 3, 4, firmwares[0]);
    var rest := firmwares[1..];
    AdditionalVersionsRoundTrip(p, rest, |rest|);
    assert rest[..|rest|] == rest;
    assert ByteOr0(p, 6) == |rest|;
    MajorMinorTextsCons(firmwares);
  }

  lemma MajorMinorTextsCons(vs: seq<MajorMinor>)
    requires |vs| >= 1
    ensures MajorMinorTexts(vs) == [MajorMinorText(vs[0])] + MajorMinorTexts(vs[1..])
  {
    var t := [MajorMinorText(vs[0])] + MajorMinorTexts(vs[1..]);
    assert forall i :: 0 <= i < |vs| ==> t[i] == MajorMinorTexts(vs)[i];
  }

  /** The Command Class Get serializer: the requested command class id, low byte kept. */
  function SerializeCommandClassGet(requestedCC: nat): (r: seq<Byte>)
    ensures |r| == 1 && r[0] == requestedCC % 256
  {
    [requestedCC % 256]
  }

  /** A received Command Class Get is never deserialized: the constructor throws. */
  function DeserializeCommandClassGet(payload: seq<Byte>): (r: Result<nat, Thrown>)
    ensures r == Err(ZWaveError(Deserialization_NotImplemented))
  {
    Err(ZWaveError(Deserialization_NotImplemented))
  }

  datatype CommandClassVersion = CommandClassVersion(requestedCC: Option<Byte>, ccVersion: Option<Byte>)

  /** The Command Class Report constructor: the command class at byte 0, its version at byte 1. */
  function ParseCommandClassReport(payload: seq<Byte>): (r: CommandClassVersion)
    ensures r.requestedCC.Some? <==> |payload| >= 1
    ensures r.ccVersion.Some? <==> |payload| >= 2
    ensures |payload| >= 2 ==> r == CommandClassVersion(Some(payload[0]), Some(payload[1]))
  {
    CommandClassVersion(At(payload, 0), At(payload, 1))
  }

  /** A report that echoes a Get's byte names the requested command class, with the version after it. */
  lemma CommandClassReportAnswersGet(requestedCC: nat, ccVersion: Byte)
    requires requestedCC < 256
    ensures ParseCommandClassReport(SerializeCommandClassGet(requestedCC) + [ccVersion])
            == CommandClassVersion(Some(requestedCC), Some(ccVersion))
  {
  }

  /** The Capabilities Report constructor: Z-Wave Software Get support is bit 2 of byte 0. */
  function ParseCapabilitiesReport(payload: seq<Byte>): (r: bool)
    ensures r <==> |payload| >= 1 && (payload[0] / 4) % 2 == 1
  {
    Bit2(ByteOr0(payload, 0));
    Flag(ByteOr0(payload, 0), 0x04)
  }

  /** Masking with 0b100 tests the third bit from the bottom. */
  lemma Bit2(b: Byte)
    ensures Flag(b, 0x04) <==> (b / 4) % 2 == 1
  {
    assert Pow2(2) == 4;
    AndSingleBit(b, 2, 8);
    assert Bit(b, 2) == Bit(b / 2, 1) == Bit(b / 2 / 2, 0);
    assert b / 2 / 2 == b / 4;
  }

  datatype SoftwareReport = SoftwareReport(
    sdkVersion: string,
    applicationFrameworkAPIVersion: string,
    applicationFrameworkBuildNumber: nat,
    hostInterfaceVersion: string,
    hostInterfaceBuildNumber: nat,
    zWaveProtocolVersion: string,
    zWaveProtocolBuildNumber: nat,
    applicationVersion: string,
    applicationBuildNumber: nat)

  /** A build number can be read: its version is unused, or its two bytes are inside the payload. */
  predicate BuildReadable(p: seq<Byte>, versionAt: nat, buildAt: nat) {
    ParseVersion(Drop(p, versionAt)) == "unused" || buildAt + 2 <= |p|
  }

  /** A build number: 0 when its version is unused, else readUInt16BE, which throws a RangeError past the end. */
  function BuildNumber(p: seq<Byte>, versionAt: nat, buildAt: nat): (r: Result<nat, Thrown>)
    ensures r.Ok? <==> BuildReadable(p, versionAt, buildAt)
    ensures r.Err? ==> r.error == RangeError
    ensures r.Ok? && ParseVersion(Drop(p, versionAt)) == "unused" ==> r.value == 0
    ensures r.Ok? && ParseVersion(Drop(p, versionAt)) != "unused" ==> r.value == UIntBE(p[buildAt..buildAt + 2])
  {
    if ParseVersion(Drop(p, versionAt)) == "unused" then Ok(0)
    else match ReadUIntBE(p, buildAt, 2)
      case Some(v) => Ok(v)
      case None => Err(RangeError)
  }

  /**
   * The Z-Wave Software Report constructor: five versions at offsets 0, 3,
   * 8, 13 and 18, and after each of the last four a build number at 6, 11,
   * 16 and 21.
   */
  function ParseZWaveSoftwareReport(p: seq<Byte>): (r: Result<SoftwareReport, Thrown>)
    ensures r.Ok? <==> BuildReadable(p, 3, 6) && BuildReadable(p, 8, 11)
                       && BuildReadable(p, 13, 16) && BuildReadable(p, 18, 21)
    ensures r.Err? ==> r.error == RangeError
    ensures r.Ok? ==> r.value.sdkVersion == ParseVersion(p)
                      && r.value.applicationFrameworkAPIVersion == ParseVersion(Drop(p, 3))
                      && r.value.hostInterfaceVersion == ParseVersion(Drop(p, 8))
                      && r.value.zWaveProtocolVersion == ParseVersion(Drop(p, 13))
                      && r.value.applicationVersion == ParseVersion(Drop(p, 18))
    ensures r.Ok? ==> Ok(r.value.applicationFrameworkBuildNumber) == BuildNumber(p, 3, 6)
                      && Ok(r.value.hostInterfaceBuildNumber) == BuildNumber(p, 8, 11)
                      && Ok(r.value.zWaveProtocolBuildNumber) == BuildNumber(p, 13, 16)
                      && Ok(r.value.applicationBuildNumber) == BuildNumber(p, 18, 21)
  {
    var frameworkBuild := BuildNumber(p, 3, 6);
    var hostBuild := BuildNumber(p, 8, 11);
    var protocolBuild := BuildNumber(p, 13, 16);
    var applicationBuild := BuildNumber(p, 18, 21);
    if frameworkBuild.Err? || hostBuild.Err? || protocolBuild.Err? || applicationBuild.Err? then
      Err(RangeError)
    else
      Ok(SoftwareReport(
        ParseVersion(p),
        ParseVersion(Drop(p, 3)), frameworkBuild.value,
        ParseVersion(Drop(p, 8)), hostBuild.value,
        ParseVersion(Drop(p, 13)), protocolBuild.value,
        ParseVersion(Drop(p, 18)), applicationBuild.value))
  }

  /** A version followed by its build number, as the report lays them out. */
  function VersionAndBuild(v: SoftwareVersion, build: nat): (r: seq<Byte>)
    requires build < 0x10000
    ensures |r| == 5
  {
    SoftwareVersionBytes(v) + U16BE(build)
  }

  /** The build number a report with this version and build carries. */
  function ReportedBuild(v: SoftwareVersion, build: nat): nat {
    if Unused(v) then 0 else build
  }

  /**
   * A Z-Wave Software Report payload built from five versions and four build
   * numbers reads back as their texts, with the build number of every unused
   * version read as 0.
   */
  lemma SoftwareReportRoundTrip(sdk: SoftwareVersion,
                                framework: SoftwareVersion, frameworkBuild: nat,
                                host: SoftwareVersion, hostBuild: nat,
                                protocol: SoftwareVersion, protocolBuild: nat,
                                application: SoftwareVersion, applicationBuild: nat)
    requires frameworkBuild < 0x10000 && hostBuild < 0x10000
    requires protocolBuild < 0x10000 && applicationBuild < 0x10000
    ensures ParseZWaveSoftwareReport(
              SoftwareVersionBytes(sdk)
              + VersionAndBuild(framework, frameworkBuild) + VersionAndBuild(host, hostBuild)
              + VersionAndBuild(protocol, protocolBuild) + VersionAndBuild(application, applicationBuild))
            == Ok(SoftwareReport(
                 SoftwareVersionText(sdk),
                 SoftwareVersionText(framework), ReportedBuild(framework, frameworkBuild),
                 SoftwareVersionText(host), ReportedBuild(host, hostBuild),
                 SoftwareVersionText(protocol), ReportedBuild(protocol, protocolBuild),
                 SoftwareVersionText(application), ReportedBuild(application, applicationBuild)))
  {
    var a := VersionAndBuild(framework, frameworkBuild);
    var b := VersionAndBuild(host, hostBuild);
    var c := VersionAndBuild(protocol, protocolBuild);
    var d := VersionAndBuild(application, applicationBuild);
    var p := SoftwareVersionBytes(sdk) + a + b + c + d;
    assert SlotHolds(p, 3, framework, frameworkBuild) by {
      assert p[3..] == a + (b + c + d);
      SoftwareSlotReads(p, 3, framework, frameworkBuild, b + c + d);
    }
    assert SlotHolds(p, 8, host, hostBuild) by {
      assert p[8..] == b + (c + d);
      SoftwareSlotReads(p, 8, host, hostBuild, c + d);
    }
    assert SlotHolds(p, 13, protocol, protocolBuild) by {
      assert p[13..] == c + d;
      SoftwareSlotReads(p, 13, protocol, protocolBuild, d);
    }
    assert SlotHolds(p, 18, application, applicationBuild) by {
      assert p[18..] == d + [];
      SoftwareSlotReads(p, 18, application, applicationBuild, []);
    }
    assert ParseVersion(p) == SoftwareVersionText(sdk) by {
      assert p == SoftwareVersionBytes(sdk) + (a + b + c + d);
      ParseVersionReadsText(sdk, a + b + c + d);
    }
    ParseFromSlots(p, sdk, framework, frameworkBuild, host, hostBuild,
                   protocol, protocolBuild, application, applicationBuild);
  }

  /** The slot at offset k reads as version v with its reported build number. */
  predicate SlotHolds(p: seq<Byte>, k: nat, v: SoftwareVersion, build: nat) {
    ParseVersion(Drop(p, k)) == SoftwareVersionText(v) && BuildNumber(p, k, k + 3) == Ok(ReportedBuild(v, build))
  }

  lemma ParseFromSlots(p: seq<Byte>, sdk: SoftwareVersion,
                       framework: SoftwareVersion, frameworkBuild: nat,
                       host: SoftwareVersion, hostBuild: nat,
                       protocol: SoftwareVersion, protocolBuild: nat,
                       application: SoftwareVersion, applicationBuild: nat)
    requires ParseVersion(p) == SoftwareVersionText(sdk)
    requires SlotHolds(p, 3, framework, frameworkBuild) && SlotHolds(p, 8, host, hostBuild)
    requires SlotHolds(p, 13, protocol, protocolBuild) && SlotHolds(p, 18, application, applicationBuild)
    ensures ParseZWaveSoftwareReport(p)
            == Ok(SoftwareReport(
                 SoftwareVersionText(sdk),
                 SoftwareVersionText(framework), ReportedBuild(framework, frameworkBuild),
                 SoftwareVersionText(host), ReportedBuild(host, hostBuild),
                 SoftwareVersionText(protocol), ReportedBuild(protocol, protocolBuild),
                 SoftwareVersionText(application), ReportedBuild(application, applicationBuild)))
  {
  }

  /** One version and build slot at offset k reads back as the version's text and its reported build. */
  lemma SoftwareSlotReads(p: seq<Byte>, k: nat, v: SoftwareVersion, build: nat, rest: seq<Byte>)
    requires build < 0x10000
    requires k <= |p| && p[k..] == VersionAndBuild(v, build) + rest
    ensures ParseVersion(Drop(p, k)) == SoftwareVersionText(v)
    ensures BuildNumber(p, k, k + 3) == Ok(ReportedBuild(v, build))
  {
    ParseVersionReadsText(v, U16BE(build) + rest) by {
      assert p[k..] == SoftwareVersionBytes(v) + (U16BE(build) + rest);
    }
    if !Unused(v) {
      assert p[k + 3..k + 5] == p[k..][3..5] == U16BE(build);
    }
  }
}
