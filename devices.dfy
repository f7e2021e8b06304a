/**
 * Device configuration files: the firmware version test and the validation
 * the DeviceConfig, AssociationConfig and ParamInformation constructors
 * apply to a parsed JSON definition, with the loops that fill the
 * association and parameter information maps.
 *
 * The definition arrives already parsed. An object keeps its entries in the
 * order the engine enumerates them; a missing property reads as None
 * (`undefined`), a JSON null as Some(JNull). The 4-digit hex key test
 * (hexKeyRegex4Digits) is not part of this model and is a parameter;
 * throwInvalidConfig is modelled as throwing a Config_Invalid error.
 */
module Devices {
  import opened Wrappers
  import opened Errors
  import opened Text

  datatype Json =
    | JNull
    | JBool(b: bool)
    | JNumber(n: int)
    | JString(s: string)
    | JArray(items: seq<Json>)
    | JObject(fields: seq<(string, Json)>)

  /** What throwInvalidConfig throws. */
  const InvalidConfig: Thrown := ZWaveError(Config_Invalid)

  /** The value of the first entry named `key`. */
  function Lookup(fields: seq<(string, Json)>, key: string): Option<Json> {
    if fields == [] then None
    else if fields[0].0 == key then Some(fields[0].1)
    else Lookup(fields[1..], key)
  }

  /** `v.key` on a value that is not null: an object's property, `undefined` on anything else. */
  function Field(v: Json, key: string): Option<Json> {
    if v.JObject? then Lookup(v.fields, key) else None
  }

  predicate IsString(v: Option<Json>) {
    v.Some? && v.value.JString?
  }

  predicate IsNumber(v: Option<Json>) {
    v.Some? && v.value.JNumber?
  }

  predicate IsBoolean(v: Option<Json>) {
    v.Some? && v.value.JBool?
  }

  /** isObject: an object, not null and not an array. */
  predicate IsObject(v: Option<Json>) {
    v.Some? && v.value.JObject?
  }

  /** `v == undefined` with loose equality: missing or null. */
  predicate IsNullish(v: Option<Json>) {
    v.None? || v == Some(JNull)
  }

  // ---------------------------------------------------------------------
  // Firmware versions
  // ---------------------------------------------------------------------

  /** The index of the first dot, or the length when there is none. */
  function FirstDot(s: string): (r: nat)
    ensures r <= |s|
    ensures forall k :: 0 <= k < r ==> s[k] != '.'
    ensures r < |s| ==> s[r] == '.'
  {
    if s == [] || s[0] == '.' then 0
    else
      var r := 1 + FirstDot(s[1..]);
      assert forall k :: 1 <= k < r ==> s[k] == s[1..][k - 1];
      r
  }

  /** One side of a firmware version: one to three digits whose value is at most 255. */
  predicate VersionPart(x: string) {
    1 <= |x| <= 3 && AllDigits(x) && ParseDecimal(x) <= 255
  }

  /**
   * isFirmwareVersion on a string: it matches /^\d{1,3}\.\d{1,3}$/ and
   * both parts, parsed in base 10, lie in 0..255.
   */
  function IsFirmwareVersionString(s: string): (r: bool)
    ensures r <==> exists x, y :: s == Dotted(x, y) && VersionPart(x) && VersionPart(y)
  {
    var i := FirstDot(s);
    if i < |s| && VersionPart(s[..i]) && VersionPart(s[i + 1..]) then
      assert s == Dotted(s[..i], s[i + 1..]);
      true
    else
      assert forall x, y :: s == Dotted(x, y) && VersionPart(x) ==> x == s[..i] && y == s[i + 1..] by {
        forall x, y | s == Dotted(x, y) && VersionPart(x)
          ensures x == s[..i] && y == s[i + 1..]
        {
          FirstDotAfterDigits(x, y);
        }
      }
      false
  }

  /** After a run of digits, the first dot is the one that ends the run. */
  lemma FirstDotAfterDigits(x: string, y: string)
    requires AllDigits(x)
    ensures FirstDot(Dotted(x, y)) == |x|
  {
    var s := Dotted(x, y);
    assert s[|x|] == '.';
    assert forall k :: 0 <= k < |x| ==> s[k] == x[k] && IsDigit(s[k]);
  }

  /** isFirmwareVersion: a string, shaped as above. */
  predicate IsFirmwareVersion(v: Option<Json>) {
    IsString(v) && IsFirmwareVersionString(v.value.s)
  }

  /** Numbers below 1000 have at most three digits. */
  lemma {:induction false} DecimalLength(n: nat)
    requires n < 1000
    ensures |Decimal(n)| <= 3
  {
    if n >= 10 {
      DecimalLength(n / 10);
      if n >= 100 {
        assert |Decimal(n / 10)| <= 2 by {
          if n / 10 >= 10 {
            assert |Decimal(n / 100)| == 1;
          }
        }
      }
    }
  }

  /** Every pair of bytes, written "a.b", is a firmware version. */
  lemma FirmwareVersionOfBytes(a: nat, b: nat)
    requires a <= 255 && b <= 255
    ensures IsFirmwareVersionString(Dotted(Decimal(a), Decimal(b)))
  {
    DecimalLength(a);
    DecimalLength(b);
    DecimalRoundTrip(a);
    DecimalRoundTrip(b);
    assert VersionPart(Decimal(a)) && VersionPart(Decimal(b));
  }

  /** A firmware version determines its two numbers. */
  lemma FirmwareVersionDeterminesParts(x: string, y: string, x': string, y': string)
    requires VersionPart(x) && VersionPart(y) && VersionPart(x') && VersionPart(y')
    requires Dotted(x, y) == Dotted(x', y')
    ensures ParseDecimal(x) == ParseDecimal(x') && ParseDecimal(y) == ParseDecimal(y')
  {
    SplitAtDot(x, y, x', y');
  }

  // ---------------------------------------------------------------------
  // Keys
  // ---------------------------------------------------------------------

  predicate IsHexDigit(c: char) {
    '0' <= c <= '9' || 'a' <= c <= 'f' || 'A' <= c <= 'F'
  }

  predicate AllHex(s: string) {
    forall i :: 0 <= i < |s| ==> IsHexDigit(s[i])
  }

  function HexDigitValue(c: char): (r: nat)
    requires IsHexDigit(c)
    ensures r < 16
  {
    if '0' <= c <= '9' then c as int - '0' as int
    else if 'a' <= c <= 'f' then c as int - 'a' as int + 10
    else c as int - 'A' as int + 10
  }

  /** The number a string of hex digits denotes. */
  function ParseHex(s: string): (r: nat)
    requires AllHex(s)
    ensures r < Pow16(|s|)
  {
    if s == [] then 0 else ParseHex(s[..|s| - 1]) * 16 + HexDigitValue(s[|s| - 1])
  }

  function Pow16(n: nat): (r: nat)
    ensures r >= 1
  {
    if n == 0 then 1 else 16 * Pow16(n - 1)
  }

  /** The length of the run of hex digits at the front of s. */
  function HexRun(s: string): (r: nat)
    ensures r <= |s| && AllHex(s[..r])
    ensures r < |s| ==> !IsHexDigit(s[r])
  {
    if s == [] || !IsHexDigit(s[0]) then 0
    else
      var r := 1 + HexRun(s[1..]);
      assert forall k :: 1 <= k < r ==> s[..r][k] == s[1..][..r - 1][k - 1];
      r
  }

  lemma {:induction false} HexRunOfHex(s: string)
    requires AllHex(s)
    ensures HexRun(s) == |s|
  {
    if s != [] {
      HexRunOfHex(s[1..]);
    }
  }

  /**
   * parseInt(s, 16): an optional sign, an optional 0x or 0X prefix, then the
   * longest run of hex digits; None (NaN) when that run is empty.
   */
  function ParseIntHex(s: string): (r: Option<int>)
  {
    var negative := |s| > 0 && s[0] == '-';
    var unsigned := if |s| > 0 && (s[0] == '-' || s[0] == '+') then s[1..] else s;
    var digits := if |unsigned| >= 2 && unsigned[0] == '0' && (unsigned[1] == 'x' || unsigned[1] == 'X')
                  then unsigned[2..] else unsigned;
    var n := HexRun(digits);
    if n == 0 then None
    else
      var v: int := ParseHex(digits[..n]);
      Some(if negative then -v else v)
  }

  /** A manufacturer or product key "0x" followed by four hex digits parses to their value, below 0x10000. */
  lemma ParseIntHexOfKey(h: string)
    requires |h| == 4 && AllHex(h)
    ensures ParseIntHex("0x" + h) == Some(ParseHex(h))
    ensures ParseHex(h) < 0x10000
  {
    var s := "0x" + h;
    assert s[2..] == h;
    HexRunOfHex(h);
    assert h[..4] == h;
    assert Pow16(4) == 0x10000;
  }

  /** An association key matches /^[1-9][0-9]*$/. */
  predicate IsGroupKey(key: string) {
    |key| >= 1 && '1' <= key[0] <= '9' && AllDigits(key)
  }

  /** A group id written in decimal is a group key that parses back to it. */
  lemma GroupKeyRoundTrip(groupId: nat)
    requires groupId >= 1
    ensures IsGroupKey(Decimal(groupId)) && ParseDecimal(Decimal(groupId)) == groupId
  {
    DecimalRoundTrip(groupId);
  }

  /** Every group key parses to a group id of at least 1. */
  lemma GroupKeyPositive(key: string)
    requires IsGroupKey(key)
    ensures ParseDecimal(key) >= 1
  {
    if |key| > 1 {
      LeadingDigitPositive(key);
    }
  }

  lemma {:induction false} LeadingDigitPositive(s: string)
    requires |s| >= 1 && AllDigits(s) && s[0] != '0'
    ensures ParseDecimal(s) >= 1
  {
    if |s| > 1 {
      LeadingDigitPositive(s[..|s| - 1]);
    }
  }

  /** A parameter information key: the parameter number and an optional value bit mask. */
  datatype ParamKey = ParamKey(parameter: nat, valueBitMask: Option<nat>)

  /** The length of the run of digits at the front of s. */
  function DigitRun(s: string): (r: nat)
    ensures r <= |s| && AllDigits(s[..r])
    ensures r < |s| ==> !IsDigit(s[r])
  {
    if s == [] || !IsDigit(s[0]) then 0
    else
      var r := 1 + DigitRun(s[1..]);
      assert forall k :: 1 <= k < r ==> s[..r][k] == s[1..][..r - 1][k - 1];
      r
  }

  /**
   * The parameter information key pattern /^(\d+)(?:\[0x([0-9a-fA-F]+)\])?$/:
   * digits, then nothing or a bracketed 0x-prefixed hex mask. The digits must
   * run up to the bracket, so the greedy run is the only split.
   */
  function MatchParamKey(key: string): Option<ParamKey> {
    var n := DigitRun(key);
    if n == 0 then None
    else
      var rest := key[n..];
      if rest == [] then Some(ParamKey(ParseDecimal(key[..n]), None))
      else if |rest| >= 5 && rest[..3] == "[0x" && rest[|rest| - 1] == ']' && AllHex(rest[3..|rest| - 1]) then
        Some(ParamKey(ParseDecimal(key[..n]), Some(ParseHex(rest[3..|rest| - 1]))))
      else None
  }

  /** The digits of a run that ends before a non-digit, or at the end, are found as the run. */
  lemma {:induction false} DigitRunOf(x: string, rest: string)
    requires AllDigits(x) && (rest == [] || !IsDigit(rest[0]))
    ensures DigitRun(x + rest) == |x|
    decreases |x|
  {
    if x != [] {
      assert IsDigit(x[0]) && AllDigits(x[1..]);
      assert (x + rest)[0] == x[0] && (x + rest)[1..] == x[1..] + rest;
      DigitRunOf(x[1..], rest);
    }
  }

  /** A parameter written in decimal is read back as that parameter, with no mask. */
  lemma ParamKeyRoundTrip(parameter: nat)
    ensures MatchParamKey(Decimal(parameter)) == Some(ParamKey(parameter, None))
  {
    var d := Decimal(parameter);
    DecimalRoundTrip(parameter);
    DigitRunOf(d, []);
    assert d + [] == d && d[..|d|] == d;
  }

  /** A parameter in decimal followed by a bracketed 0x-prefixed hex mask is read back as both. */
  lemma MaskedParamKeyRoundTrip(parameter: nat, hex: string)
    requires |hex| >= 1 && AllHex(hex)
    ensures MatchParamKey(Decimal(parameter) + "[0x" + hex + "]")
            == Some(ParamKey(parameter, Some(ParseHex(hex))))
  {
    DecimalRoundTrip(parameter);
    MatchMasked(Decimal(parameter), hex);
  }

  /** Digits followed by a bracketed 0x-prefixed hex mask match as the two parts. */
  lemma MatchMasked(d: string, hex: string)
    requires |d| >= 1 && AllDigits(d) && |hex| >= 1 && AllHex(hex)
    ensures MatchParamKey(d + "[0x" + hex + "]") == Some(ParamKey(ParseDecimal(d), Some(ParseHex(hex))))
  {
    var rest := BracketedHex(hex);
    assert d + "[0x" + hex + "]" == d + rest;
    DigitRunOf(d, rest);
    assert (d + rest)[|d|..] == rest && (d + rest)[..|d|] == d;
  }

  /** The bracketed mask, with its parts where the pattern looks for them. */
  function BracketedHex(hex: string): (rest: string)
    requires |hex| >= 1
    ensures rest == "[0x" + hex + "]"
    ensures |rest| >= 5 && rest[..3] == "[0x" && rest[|rest| - 1] == ']' && rest[3..|rest| - 1] == hex
    ensures !IsDigit(rest[0])
  {
    var rest := "[0x" + hex + "]";
    assert rest[..3] == "[0x";
    assert rest[3..|rest| - 1] == hex;
    rest
  }

  // ---------------------------------------------------------------------
  // AssociationConfig
  // ---------------------------------------------------------------------

  /**
   * The definition of the last entry whose key names `k` (None when no key
   * does): the one a loop that assigns each entry in turn leaves in place.
   */
  function LastDefinition<K(==)>(entries: seq<(string, Json)>, keyOf: string -> Option<K>, k: K): (r: Option<Json>)
    ensures r.Some? <==> exists i :: 0 <= i < |entries| && keyOf(entries[i].0) == Some(k)
    ensures r.Some? ==> exists i :: 0 <= i < |entries| && keyOf(entries[i].0) == Some(k) && entries[i].1 == r.value
                                   && forall j :: i < j < |entries| ==> keyOf(entries[j].0) != Some(k)
    decreases |entries|
  {
    if entries == [] then None
    else
      var init := entries[..|entries| - 1];
      assert forall i :: 0 <= i < |init| ==> init[i] == entries[i];
      if keyOf(entries[|entries| - 1].0) == Some(k) then Some(entries[|entries| - 1].1)
      else LastDefinition(init, keyOf, k)
  }

  /**
   * The map holds exactly the keys the entries name, each bound to what
   * `build` makes of the last definition for it.
   */
  ghost predicate BuiltFromLast<K(!new), V>(entries: seq<(string, Json)>, keyOf: string -> Option<K>,
                                          build: (K, Json) -> Result<V, Thrown>, m: map<K, V>) {
    && (forall k :: k in m <==> LastDefinition(entries, keyOf, k).Some?)
    && (forall k :: k in m ==> Ok(m[k]) == build(k, LastDefinition(entries, keyOf, k).value))
  }

  /** Assigning the last entry's value keeps the map built from the last definitions. */
  lemma BuiltFromLastStep<K(!new), V>(entries: seq<(string, Json)>, keyOf: string -> Option<K>,
                                    build: (K, Json) -> Result<V, Thrown>, m: map<K, V>, k0: K, v: V)
    requires entries != [] && BuiltFromLast(entries[..|entries| - 1], keyOf, build, m)
    requires keyOf(entries[|entries| - 1].0) == Some(k0) && build(k0, entries[|entries| - 1].1) == Ok(v)
    ensures BuiltFromLast(entries, keyOf, build, m[k0 := v])
  {
    var init := entries[..|entries| - 1];
    forall k
      ensures LastDefinition(entries, keyOf, k)
        == if k == k0 then Some(entries[|entries| - 1].1) else LastDefinition(init, keyOf, k)
    {
    }
  }

  datatype AssociationConfig = AssociationConfig(
    groupId: nat,
    labelText: string,
    description: Option<Json>,
    maxNodes: int,
    isLifeline: bool,
    noEndpoint: bool)

  /** A flag that must be left out or true: whether it is true. */
  predicate TrueOrLeftOut(v: Option<Json>) {
    IsNullish(v) || v == Some(JBool(true))
  }

  /**
   * The AssociationConfig constructor: the label must be a string, the
   * description nullish or a string, maxNodes a number, isLifeline and
   * noEndpoint nullish or true (false when left out). Reading a property of
   * null throws a TypeError.
   */
  function AssociationConfigOf(groupId: nat, d: Json): (r: Result<AssociationConfig, Thrown>)
    ensures d == JNull ==> r == Err(TypeError)
    ensures d != JNull ==>
              (r.Ok? <==>
                 IsString(Field(d, "label"))
                 && (IsNullish(Field(d, "description")) || IsString(Field(d, "description")))
                 && IsNumber(Field(d, "maxNodes"))
                 && TrueOrLeftOut(Field(d, "isLifeline"))
                 && TrueOrLeftOut(Field(d, "noEndpoint")))
    ensures d != JNull && r.Err? ==> r.error == InvalidConfig
    ensures r.Ok? ==> r.value.groupId == groupId
                      && Some(JString(r.value.labelText)) == Field(d, "label")
                      && Some(JNumber(r.value.maxNodes)) == Field(d, "maxNodes")
                      && (r.value.isLifeline <==> Field(d, "isLifeline") == Some(JBool(true)))
                      && (r.value.noEndpoint <==> Field(d, "noEndpoint") == Some(JBool(true)))
  {
    if d == JNull then Err(TypeError)
    else
      var labelField := Field(d, "label");
      var description := Field(d, "description");
      var maxNodes := Field(d, "maxNodes");
      var isLifeline := Field(d, "isLifeline");
      var noEndpoint := Field(d, "noEndpoint");
      if !IsString(labelField) then Err(InvalidConfig)
      else if !IsNullish(description) && !IsString(description) then Err(InvalidConfig)
      else if !IsNumber(maxNodes) then Err(InvalidConfig)
      else if !TrueOrLeftOut(isLifeline) then Err(InvalidConfig)
      else if !TrueOrLeftOut(noEndpoint) then Err(InvalidConfig)
      else
        Ok(AssociationConfig(groupId, labelField.value.s, description, maxNodes.value.n,
                             isLifeline == Some(JBool(true)), noEndpoint == Some(JBool(true))))
  }

  /** The group id an association key names, if it is a group key. */
  function GroupKeyOf(key: string): (r: Option<nat>)
    ensures r.Some? <==> IsGroupKey(key)
    ensures r.Some? ==> r.value >= 1
  {
    if IsGroupKey(key) then
      GroupKeyPositive(key);
      Some(ParseDecimal(key))
    else None
  }

  /** An association entry has a group key and a definition the AssociationConfig constructor accepts. */
  predicate AssociationEntryOk(e: (string, Json)) {
    GroupKeyOf(e.0).Some? && AssociationConfigOf(GroupKeyOf(e.0).value, e.1).Ok?
  }

  /**
   * The associations map after the given entries, in order; the first bad
   * entry throws. Each group holds the configuration built from the last
   * entry naming it, since a later assignment replaces an earlier one.
   */
  function AssociationsOf(entries: seq<(string, Json)>): (r: Result<map<nat, AssociationConfig>, Thrown>)
    ensures r.Ok? ==> forall g :: g in r.value ==> r.value[g].groupId == g && g >= 1
    ensures r.Ok? ==> r.value.Keys == GroupIds(entries)
  {
    if entries == [] then Ok(map[])
    else
      var prev := AssociationsOf(entries[..|entries| - 1]);
      var (key, definition) := entries[|entries| - 1];
      if prev.Err? then prev
      else if !IsGroupKey(key) then Err(InvalidConfig)
      else
        var groupId := ParseDecimal(key);
        GroupKeyPositive(key);
        match AssociationConfigOf(groupId, definition)
        case Err(e) => Err(e)
        case Ok(c) => Ok(prev.value[groupId := c])
  }

  /**
   * The associations map is built exactly when every entry has a group key
   * and an accepted definition, and each group then holds the configuration
   * built from the last entry naming it.
   */
  lemma {:induction false} AssociationsOfAccepts(entries: seq<(string, Json)>)
    ensures AssociationsOf(entries).Ok? <==> AssociationEntriesOk(entries)
    ensures AssociationsOf(entries).Ok? ==>
              BuiltFromLast(entries, GroupKeyOf, AssociationConfigOf, AssociationsOf(entries).value)
    decreases |entries|
  {
    if entries != [] {
      var init := entries[..|entries| - 1];
      AssociationsOfAccepts(init);
      var prev := AssociationsOf(init);
      var (key, definition) := entries[|entries| - 1];
      assert forall i :: 0 <= i < |init| ==> init[i] == entries[i];
      if prev.Err? {
        var i :| 0 <= i < |init| && !AssociationEntryOk(init[i]);
        assert !AssociationEntryOk(entries[i]);
      } else if !IsGroupKey(key) {
        assert !AssociationEntryOk(entries[|entries| - 1]);
      } else {
        var groupId := ParseDecimal(key);
        GroupKeyPositive(key);
        assert GroupKeyOf(key) == Some(groupId);
        match AssociationConfigOf(groupId, definition)
        case Err(e) =>
          assert !AssociationEntryOk(entries[|entries| - 1]);
        case Ok(c) =>
          AssociationEntriesStep(init, entries);
          BuiltFromLastStep(entries, GroupKeyOf, AssociationConfigOf, prev.value, groupId, c);
      }
    }
  }

  predicate AssociationEntriesOk(entries: seq<(string, Json)>) {
    forall i :: 0 <= i < |entries| ==> AssociationEntryOk(entries[i])
  }

  /** Every entry is accepted when the earlier ones and the last one are. */
  lemma AssociationEntriesStep(init: seq<(string, Json)>, entries: seq<(string, Json)>)
    requires entries != [] && init == entries[..|entries| - 1]
    requires forall i :: 0 <= i < |init| ==> AssociationEntryOk(init[i])
    requires AssociationEntryOk(entries[|entries| - 1])
    ensures forall i :: 0 <= i < |entries| ==> AssociationEntryOk(entries[i])
  {
    forall i | 0 <= i < |init|
      ensures AssociationEntryOk(entries[i])
    {
      assert init[i] == entries[i];
    }
  }

  /** The group ids the keys of the entries name (entries whose key is not a group key add none). */
  function GroupIds(entries: seq<(string, Json)>): set<nat> {
    if entries == [] then {}
    else
      var key := entries[|entries| - 1].0;
      GroupIds(entries[..|entries| - 1]) + (if IsGroupKey(key) then {ParseDecimal(key)} else {})
  }

  /** Once an entry has thrown, the later ones are never looked at. */
  lemma {:induction false} AssociationsErrorPersists(entries: seq<(string, Json)>, i: nat)
    requires i <= |entries| && AssociationsOf(entries[..i]).Err?
    ensures AssociationsOf(entries) == AssociationsOf(entries[..i])
    decreases |entries| - i
  {
    if i < |entries| {
      assert entries[..i + 1][..i] == entries[..i];
      AssociationsErrorPersists(entries, i + 1);
    } else {
      assert entries[..i] == entries;
    }
  }

  /** The constructor's loop over the association entries, filling the map. */
  method FillAssociations(entries: seq<(string, Json)>) returns (r: Result<map<nat, AssociationConfig>, Thrown>)
    ensures r == AssociationsOf(entries)
  {
    var associations: map<nat, AssociationConfig> := map[];
    var i := 0;
    while i < |entries|
      invariant 0 <= i <= |entries|
      invariant AssociationsOf(entries[..i]) == Ok(associations)
    {
      var (key, definition) := entries[i];
      assert entries[..i + 1][..i] == entries[..i];
      if !IsGroupKey(key) {
        AssociationsErrorPersists(entries, i + 1);
        return Err(InvalidConfig);
      }
      var groupId := ParseDecimal(key);
      var config := AssociationConfigOf(groupId, definition);
      if config.Err? {
        AssociationsErrorPersists(entries, i + 1);
        return Err(config.error);
      }
      associations := associations[groupId := config.value];
      i := i + 1;
    }
    assert entries[..i] == entries;
    r := Ok(associations);
  }

  // ---------------------------------------------------------------------
  // ParamInformation
  // ---------------------------------------------------------------------

  datatype ConfigOption = ConfigOption(labelText: string, value: int)

  datatype ParamInformation = ParamInformation(
    parameterNumber: nat,
    valueBitMask: Option<nat>,
    labelText: string,
    description: Option<Json>,
    valueSize: int,
    minValue: int,
    maxValue: int,
    defaultValue: int,
    unsigned: bool,
    readOnly: bool,
    writeOnly: bool,
    allowManualEntry: bool,
    options: seq<ConfigOption>)

  /** An option entry: an object with a string label and a number value. */
  predicate IsOption(v: Json) {
    v.JObject? && IsString(Field(v, "label")) && IsNumber(Field(v, "value"))
  }

  function OptionOf(v: Json): ConfigOption
    requires IsOption(v)
  {
    ConfigOption(Field(v, "label").value.s, Field(v, "value").value.n)
  }

  /**
   * The options a parameter keeps: an array of well-formed entries is copied
   * (label and value only), nullish gives none; `.map` on anything else is
   * not a function and throws a TypeError.
   */
  function OptionsOf(v: Option<Json>): (r: Result<seq<ConfigOption>, Thrown>)
    requires v.Some? && v.value.JArray? ==> forall i :: 0 <= i < |v.value.items| ==> IsOption(v.value.items[i])
    ensures r.Ok? <==> IsNullish(v) || (v.Some? && v.value.JArray?)
    ensures r.Err? ==> r.error == TypeError
    ensures r.Ok? && IsNullish(v) ==> r.value == []
    ensures r.Ok? && !IsNullish(v) ==> |r.value| == |v.value.items|
                                       && forall i :: 0 <= i < |r.value| ==> r.value[i] == OptionOf(v.value.items[i])
  {
    if IsNullish(v) then Ok([])
    else if v.value.JArray? then Ok(seq(|v.value.items|, i requires 0 <= i < |v.value.items| => OptionOf(v.value.items[i])))
    else Err(TypeError)
  }

  /** The options kept from a property: none when it is nullish, else every entry of the array, in order. */
  predicate OptionsKept(v: Option<Json>, options: seq<ConfigOption>) {
    (IsNullish(v) && options == [])
    || (v.Some? && v.value.JArray? && |options| == |v.value.items|
        && forall i :: 0 <= i < |options| ==> IsOption(v.value.items[i]) && options[i] == OptionOf(v.value.items[i]))
  }

  /** The options property is not an array, or is an array of well-formed entries only. */
  predicate OptionsWellFormed(v: Option<Json>) {
    v.Some? && v.value.JArray? ==> forall i :: 0 <= i < |v.value.items| ==> IsOption(v.value.items[i])
  }

  /** Every property check of the ParamInformation constructor passes (each failure throws Config_Invalid). */
  predicate ParamChecksPass(d: Json) {
    && IsString(Field(d, "label"))
    && (IsNullish(Field(d, "description")) || IsString(Field(d, "description")))
    && IsNumber(Field(d, "valueSize")) && Field(d, "valueSize").value.n > 0
    && IsNumber(Field(d, "minValue"))
    && IsNumber(Field(d, "maxValue"))
    && IsNumber(Field(d, "defaultValue"))
    && (IsNullish(Field(d, "unsigned")) || IsBoolean(Field(d, "unsigned")))
    && IsBoolean(Field(d, "readOnly"))
    && IsBoolean(Field(d, "writeOnly"))
    && IsBoolean(Field(d, "allowManualEntry"))
    && OptionsWellFormed(Field(d, "options"))
  }

  /**
   * The ParamInformation constructor: a string label, a nullish or string
   * description, a number valueSize above 0, number min, max and default
   * values, a nullish or boolean unsigned (true only when true), boolean
   * readOnly, writeOnly and allowManualEntry, and options that, when an
   * array, hold only well-formed entries. Any failed check throws
   * Config_Invalid; options that pass the check but are neither nullish nor
   * an array have no `map` and throw a TypeError.
   */
  function ParamInformationOf(key: ParamKey, d: Json): (r: Result<ParamInformation, Thrown>)
    ensures d == JNull ==> r == Err(TypeError)
    ensures d != JNull ==>
              (r.Ok? <==> ParamChecksPass(d)
                          && (IsNullish(Field(d, "options")) || Field(d, "options").value.JArray?))
    ensures d != JNull && r.Err? ==> r.error == if ParamChecksPass(d) then TypeError else InvalidConfig
    ensures r.Ok? ==> r.value.description == Field(d, "description")
    ensures r.Ok? ==> r.value.parameterNumber == key.parameter && r.value.valueBitMask == key.valueBitMask
    ensures r.Ok? ==> Some(JString(r.value.labelText)) == Field(d, "label")
                      && Some(JNumber(r.value.valueSize)) == Field(d, "valueSize") && r.value.valueSize > 0
                      && Some(JNumber(r.value.minValue)) == Field(d, "minValue")
                      && Some(JNumber(r.value.maxValue)) == Field(d, "maxValue")
                      && Some(JNumber(r.value.defaultValue)) == Field(d, "defaultValue")
                      && (r.value.unsigned <==> Field(d, "unsigned") == Some(JBool(true)))
                      && Some(JBool(r.value.readOnly)) == Field(d, "readOnly")
                      && Some(JBool(r.value.writeOnly)) == Field(d, "writeOnly")
                      && Some(JBool(r.value.allowManualEntry)) == Field(d, "allowManualEntry")
    ensures r.Ok? ==> OptionsKept(Field(d, "options"), r.value.options)
    ensures d != JNull && !IsString(Field(d, "label")) ==> r == Err(InvalidConfig)
    ensures d != JNull && !(IsNumber(Field(d, "valueSize")) && Field(d, "valueSize").value.n > 0) ==> r.Err?
  {
    if d == JNull then Err(TypeError)
    else
      var labelField := Field(d, "label");
      var description := Field(d, "description");
      var valueSize := Field(d, "valueSize");
      var minValue := Field(d, "minValue");
      var maxValue := Field(d, "maxValue");
      var defaultValue := Field(d, "defaultValue");
      var unsigned := Field(d, "unsigned");
      var readOnly := Field(d, "readOnly");
      var writeOnly := Field(d, "writeOnly");
      var allowManualEntry := Field(d, "allowManualEntry");
      var options := Field(d, "options");
      if !IsString(labelField) then Err(InvalidConfig)
      else if !IsNullish(description) && !IsString(description) then Err(InvalidConfig)
      else if !IsNumber(valueSize) || valueSize.value.n <= 0 then Err(InvalidConfig)
      else if !IsNumber(minValue) then Err(InvalidConfig)
      else if !IsNumber(maxValue) then Err(InvalidConfig)
      else if !IsNumber(defaultValue) then Err(InvalidConfig)
      else if !IsNullish(unsigned) && !IsBoolean(unsigned) then Err(InvalidConfig)
      else if !IsBoolean(readOnly) then Err(InvalidConfig)
      else if !IsBoolean(writeOnly) then Err(InvalidConfig)
      else if !IsBoolean(allowManualEntry) then Err(InvalidConfig)
      else if options.Some? && options.value.JArray?
              && !(forall i :: 0 <= i < |options.value.items| ==> IsOption(options.value.items[i])) then
        Err(InvalidConfig)
      else
        match OptionsOf(options)
        case Err(e) => Err(e)
        case Ok(kept) =>
          Ok(ParamInformation(key.parameter, key.valueBitMask, labelField.value.s, description,
                              valueSize.value.n, minValue.value.n, maxValue.value.n, defaultValue.value.n,
                              unsigned == Some(JBool(true)), readOnly.value.b, writeOnly.value.b,
                              allowManualEntry.value.b, kept))
  }

  /** A parameter entry has a well-formed key and a definition the ParamInformation constructor accepts. */
  predicate ParamEntryOk(e: (string, Json)) {
    MatchParamKey(e.0).Some? && ParamInformationOf(MatchParamKey(e.0).value, e.1).Ok?
  }

  predicate ParamEntriesOk(entries: seq<(string, Json)>) {
    forall i :: 0 <= i < |entries| ==> ParamEntryOk(entries[i])
  }

  /** Every entry is accepted when the earlier ones and the last one are. */
  lemma ParamEntriesStep(init: seq<(string, Json)>, entries: seq<(string, Json)>)
    requires entries != [] && init == entries[..|entries| - 1]
    requires forall i :: 0 <= i < |init| ==> ParamEntryOk(init[i])
    requires ParamEntryOk(entries[|entries| - 1])
    ensures forall i :: 0 <= i < |entries| ==> ParamEntryOk(entries[i])
  {
    forall i | 0 <= i < |init|
      ensures ParamEntryOk(entries[i])
    {
      assert init[i] == entries[i];
    }
  }

  /** The parameter information map after the given entries, in order; the first bad entry throws. */
  function ParamInformationMapOf(entries: seq<(string, Json)>): (r: Result<map<ParamKey, ParamInformation>, Thrown>)
    ensures r.Ok? ==> forall k :: k in r.value ==>
              r.value[k].parameterNumber == k.parameter && r.value[k].valueBitMask == k.valueBitMask
    ensures r.Ok? ==> forall i :: 0 <= i < |entries| ==> MatchParamKey(entries[i].0).Some?
  {
    if entries == [] then Ok(map[])
    else
      var prev := ParamInformationMapOf(entries[..|entries| - 1]);
      var (key, definition) := entries[|entries| - 1];
      if prev.Err? then prev
      else match MatchParamKey(key)
        case None => Err(InvalidConfig)
        case Some(k) =>
          match ParamInformationOf(k, definition)
          case Err(e) => Err(e)
          case Ok(info) =>
            assert forall i :: 0 <= i < |entries| - 1 ==> entries[i] == entries[..|entries| - 1][i];
            Ok(prev.value[k := info])
  }

  /**
   * The parameter information map is built exactly when every entry has a
   * well-formed key and an accepted definition, and each key then holds the
   * information built from the last entry naming it.
   */
  lemma {:induction false} ParamInformationMapAccepts(entries: seq<(string, Json)>)
    ensures ParamInformationMapOf(entries).Ok? <==> ParamEntriesOk(entries)
    ensures ParamInformationMapOf(entries).Ok? ==>
              BuiltFromLast(entries, MatchParamKey, ParamInformationOf, ParamInformationMapOf(entries).value)
    decreases |entries|
  {
    if entries != [] {
      var init := entries[..|entries| - 1];
      ParamInformationMapAccepts(init);
      var prev := ParamInformationMapOf(init);
      var (key, definition) := entries[|entries| - 1];
      assert forall i :: 0 <= i < |init| ==> init[i] == entries[i];
      if prev.Err? {
        var i :| 0 <= i < |init| && !ParamEntryOk(init[i]);
        assert !ParamEntryOk(entries[i]);
      } else {
        match MatchParamKey(key)
        case None =>
          assert !ParamEntryOk(entries[|entries| - 1]);
        case Some(k) =>
          match ParamInformationOf(k, definition)
          case Err(e) =>
            assert !ParamEntryOk(entries[|entries| - 1]);
          case Ok(info) =>
            ParamEntriesStep(init, entries);
            BuiltFromLastStep(entries, MatchParamKey, ParamInformationOf, prev.value, k, info);
      }
    }
  }

  lemma {:induction false} ParamInformationErrorPersists(entries: seq<(string, Json)>, i: nat)
    requires i <= |entries| && ParamInformationMapOf(entries[..i]).Err?
    ensures ParamInformationMapOf(entries) == ParamInformationMapOf(entries[..i])
    decreases |entries| - i
  {
    if i < |entries| {
      assert entries[..i + 1][..i] == entries[..i];
      ParamInformationErrorPersists(entries, i + 1);
    } else {
      assert entries[..i] == entries;
    }
  }

  /** One pass of the constructor's loop: match the key, build the information and store it. */
  method AddParamInformation(entries: seq<(string, Json)>, i: nat, m: map<ParamKey, ParamInformation>)
    returns (next: Result<map<ParamKey, ParamInformation>, Thrown>)
    requires i < |entries| && ParamInformationMapOf(entries[..i]) == Ok(m)
    ensures next == ParamInformationMapOf(entries[..i + 1])
  {
    var (key, definition) := entries[i];
    assert entries[..i + 1][..i] == entries[..i];
    var matched := MatchParamKey(key);
    if matched.None? {
      return Err(InvalidConfig);
    }
    var info := ParamInformationOf(matched.value, definition);
    if info.Err? {
      return Err(info.error);
    }
    next := Ok(m[matched.value := info.value]);
  }

  /** The constructor's loop over the parameter information entries, filling the map. */
  method FillParamInformation(entries: seq<(string, Json)>) returns (r: Result<map<ParamKey, ParamInformation>, Thrown>)
    ensures r == ParamInformationMapOf(entries)
  {
    var paramInformation: map<ParamKey, ParamInformation> := map[];
    var i := 0;
    while i < |entries|
      invariant 0 <= i <= |entries|
      invariant ParamInformationMapOf(entries[..i]) == Ok(paramInformation)
    {
      var next := AddParamInformation(entries, i, paramInformation);
      if next.Err? {
        ParamInformationErrorPersists(entries, i + 1);
        return next;
      }
      paramInformation := next.value;
      i := i + 1;
    }
    assert entries[..i] == entries;
    r := Ok(paramInformation);
  }

  // ---------------------------------------------------------------------
  // DeviceConfig
  // ---------------------------------------------------------------------

  /** One entry of `devices`: only the product type and id are kept. */
  datatype Product = Product(productType: string, productId: string)

  /** `firmwareVersion`: false for every version, or an inclusive min/max range. */
  datatype FirmwareVersionRange = AnyVersion | VersionRange(min: string, max: string)

  /**
   * A device configuration as the constructor leaves it. The maps are None
   * when the definition leaves them out; proprietary and compat keep the raw
   * object (the CompatConfig constructor is not part of this model).
   * manufacturerId is parseInt's result, None standing for NaN.
   */
  datatype DeviceConfig = DeviceConfig(
    manufacturerId: Option<int>,
    manufacturer: string,
    labelText: string,
    description: string,
    devices: seq<Product>,
    firmwareVersion: FirmwareVersionRange,
    associations: Option<map<nat, AssociationConfig>>,
    paramInformation: Option<map<ParamKey, ParamInformation>>,
    proprietary: Option<Json>,
    compat: Option<Json>)

  /** isHexKeyWith4Digits: a string the 4-digit hex key test accepts. */
  predicate IsHexKeyWith4Digits(v: Option<Json>, isHexKey: string -> bool) {
    IsString(v) && isHexKey(v.value.s)
  }

  /** The manufacturer id is a hex key and manufacturer, label and description are strings. */
  predicate ValidIdentity(d: Json, isHexKey: string -> bool) {
    IsHexKeyWith4Digits(Field(d, "manufacturerId"), isHexKey)
    && IsString(Field(d, "manufacturer"))
    && IsString(Field(d, "label"))
    && IsString(Field(d, "description"))
  }

  /** A `devices` entry: an object whose productType and productId are hex keys. */
  predicate IsProduct(dev: Json, isHexKey: string -> bool) {
    dev.JObject?
    && IsHexKeyWith4Digits(Field(dev, "productType"), isHexKey)
    && IsHexKeyWith4Digits(Field(dev, "productId"), isHexKey)
  }

  /** `devices` is an array and every entry is a product. */
  predicate ValidProducts(v: Option<Json>, isHexKey: string -> bool) {
    v.Some? && v.value.JArray? && forall i :: 0 <= i < |v.value.items| ==> IsProduct(v.value.items[i], isHexKey)
  }

  /** `firmwareVersion` is false, or an object whose min and max are firmware versions. */
  predicate ValidFirmwareRange(v: Option<Json>) {
    v == Some(JBool(false))
    || (IsObject(v) && IsFirmwareVersion(Field(v.value, "min")) && IsFirmwareVersion(Field(v.value, "max")))
  }

  /** An optional object property: left out (nullish) or an object. */
  predicate NullishOrObject(v: Option<Json>) {
    IsNullish(v) || IsObject(v)
  }

  /** The checks on the identity fields, devices and firmwareVersion. */
  predicate ValidHeader(d: Json, isHexKey: string -> bool) {
    ValidIdentity(d, isHexKey) && ValidProducts(Field(d, "devices"), isHexKey)
    && ValidFirmwareRange(Field(d, "firmwareVersion"))
  }

  /** associations, paramInformation, proprietary and compat are each left out or an object. */
  predicate ValidOptionals(d: Json) {
    NullishOrObject(Field(d, "associations")) && NullishOrObject(Field(d, "paramInformation"))
    && NullishOrObject(Field(d, "proprietary")) && NullishOrObject(Field(d, "compat"))
  }

  function ProductOf(dev: Json, isHexKey: string -> bool): Product
    requires IsProduct(dev, isHexKey)
  {
    Product(Field(dev, "productType").value.s, Field(dev, "productId").value.s)
  }

  /** An optional object property as a map, built by `fill` from its entries. */
  function AssociationsField(v: Option<Json>): Result<Option<map<nat, AssociationConfig>>, Thrown>
    requires NullishOrObject(v)
  {
    if IsNullish(v) then Ok(None)
    else match AssociationsOf(v.value.fields)
      case Err(e) => Err(e)
      case Ok(m) => Ok(Some(m))
  }

  function ParamInformationField(v: Option<Json>): Result<Option<map<ParamKey, ParamInformation>>, Thrown>
    requires NullishOrObject(v)
  {
    if IsNullish(v) then Ok(None)
    else match ParamInformationMapOf(v.value.fields)
      case Err(e) => Err(e)
      case Ok(m) => Ok(Some(m))
  }

  function ObjectField(v: Option<Json>): Option<Json>
    requires NullishOrObject(v)
  {
    if IsNullish(v) then None else v
  }

  /**
   * The DeviceConfig constructor on a parsed definition, checking in the
   * constructor's order: the identity fields, devices, firmwareVersion,
   * associations, paramInformation, proprietary and compat. Reading a
   * property of null throws a TypeError.
   */
  function DeviceConfigOf(d: Json, isHexKey: string -> bool): (r: Result<DeviceConfig, Thrown>)
    ensures d == JNull ==> r == Err(TypeError)
    ensures d != JNull && !ValidHeader(d, isHexKey) ==> r == Err(InvalidConfig)
    ensures d != JNull && !ValidOptionals(d) ==> r.Err?
    ensures r.Ok? <==> d != JNull && ValidHeader(d, isHexKey) && ValidOptionals(d)
                       && AssociationsField(Field(d, "associations")).Ok?
                       && ParamInformationField(Field(d, "paramInformation")).Ok?
    ensures r.Ok? ==> r.value.manufacturerId == ParseIntHex(Field(d, "manufacturerId").value.s)
                      && Field(d, "manufacturer") == Some(JString(r.value.manufacturer))
                      && Field(d, "label") == Some(JString(r.value.labelText))
                      && Field(d, "description") == Some(JString(r.value.description))
    ensures r.Ok? ==> |r.value.devices| == |Field(d, "devices").value.items|
                      && forall i :: 0 <= i < |r.value.devices| ==>
                           Field(Field(d, "devices").value.items[i], "productType") == Some(JString(r.value.devices[i].productType))
                           && Field(Field(d, "devices").value.items[i], "productId") == Some(JString(r.value.devices[i].productId))
    ensures r.Ok? ==> (r.value.firmwareVersion == AnyVersion <==> Field(d, "firmwareVersion") == Some(JBool(false)))
    ensures r.Ok? && r.value.firmwareVersion.VersionRange? ==>
              Field(Field(d, "firmwareVersion").value, "min") == Some(JString(r.value.firmwareVersion.min))
              && Field(Field(d, "firmwareVersion").value, "max") == Some(JString(r.value.firmwareVersion.max))
              && IsFirmwareVersionString(r.value.firmwareVersion.min)
              && IsFirmwareVersionString(r.value.firmwareVersion.max)
    ensures r.Ok? ==> (r.value.associations.None? <==> IsNullish(Field(d, "associations")))
                      && (r.value.paramInformation.None? <==> IsNullish(Field(d, "paramInformation")))
                      && (r.value.proprietary.None? <==> IsNullish(Field(d, "proprietary")))
                      && (r.value.compat.None? <==> IsNullish(Field(d, "compat")))
    ensures r.Ok? && r.value.associations.Some? ==>
              r.value.associations.value.Keys == GroupIds(Field(d, "associations").value.fields)
    ensures r.Ok? && r.value.proprietary.Some? ==> r.value.proprietary == Field(d, "proprietary") && IsObject(r.value.proprietary)
  {
    if d == JNull then Err(TypeError)
    else if !ValidIdentity(d, isHexKey) then Err(InvalidConfig)
    else
      var devices := Field(d, "devices");
      var firmwareVersion := Field(d, "firmwareVersion");
      if !ValidProducts(devices, isHexKey) then Err(InvalidConfig)
      else if !ValidFirmwareRange(firmwareVersion) then Err(InvalidConfig)
      else if !NullishOrObject(Field(d, "associations")) then Err(InvalidConfig)
      else match AssociationsField(Field(d, "associations"))
        case Err(e) => Err(e)
        case Ok(associations) =>
          if !NullishOrObject(Field(d, "paramInformation")) then Err(InvalidConfig)
          else match ParamInformationField(Field(d, "paramInformation"))
            case Err(e) => Err(e)
            case Ok(paramInformation) =>
              if !NullishOrObject(Field(d, "proprietary")) then Err(InvalidConfig)
              else if !NullishOrObject(Field(d, "compat")) then Err(InvalidConfig)
              else
                var range := if firmwareVersion == Some(JBool(false)) then AnyVersion
                             else VersionRange(Field(firmwareVersion.value, "min").value.s,
                                               Field(firmwareVersion.value, "max").value.s);
                Ok(DeviceConfig(
                  ParseIntHex(Field(d, "manufacturerId").value.s),
                  Field(d, "manufacturer").value.s,
                  Field(d, "label").value.s,
                  Field(d, "description").value.s,
                  seq(|devices.value.items|, i requires 0 <= i < |devices.value.items| => ProductOf(devices.value.items[i], isHexKey)),
                  range,
                  associations,
                  paramInformation,
                  ObjectField(Field(d, "proprietary")),
                  ObjectField(Field(d, "compat"))))
  }

  /**
   * A definition that passes keeps its optional sections: the associations and
   * the parameter information are the maps built from those sections (whose
   * contents AssociationsOfAccepts and ParamInformationMapAccepts state), and
   * compat is the raw section.
   */
  lemma DeviceConfigKeepsSections(d: Json, isHexKey: string -> bool)
    requires DeviceConfigOf(d, isHexKey).Ok?
    ensures NullishOrObject(Field(d, "associations")) && NullishOrObject(Field(d, "paramInformation"))
            && NullishOrObject(Field(d, "compat"))
    ensures var c := DeviceConfigOf(d, isHexKey).value;
            c.associations == AssociationsField(Field(d, "associations")).value
            && c.paramInformation == ParamInformationField(Field(d, "paramInformation")).value
            && c.compat == ObjectField(Field(d, "compat"))
  {
  }

  /** A manufacturer id written as "0x" and four hex digits is stored as their value, below 0x10000. */
  lemma ManufacturerIdOfKey(d: Json, isHexKey: string -> bool, h: string)
    requires DeviceConfigOf(d, isHexKey).Ok?
    requires Field(d, "manufacturerId") == Some(JString("0x" + h)) && |h| == 4 && AllHex(h)
    ensures DeviceConfigOf(d, isHexKey).value.manufacturerId == Some(ParseHex(h))
    ensures ParseHex(h) < 0x10000
  {
    ParseIntHexOfKey(h);
  }
}
