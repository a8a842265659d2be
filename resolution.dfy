/** Resolving a browser alias: the query built from the parsed alias
    (`_createQuery`) and the catalog records it matches (`_filterPlatformInfo`). */
module Resolution {
  import opened Wrappers
  import opened Text
  import opened Catalog

  /** The first record of the external capability-string parser's output for
      `Name@Version:Platform`. */
  datatype ParsedCapabilities = ParsedCapabilities(browserName: string, browserVersion: string, platform: string)

  datatype Query = Query(name: string, version: string, platform: string, deviceType: Option<string>)

  const EmulatorPrefix := "android emulator"
  const AnyValue := "any"

  /** `_createQuery`: the three parsed fields lowercased; a name that begins with
      `android emulator` becomes exactly that, and the rest of the lowercased
      name (the first `android emulator ` removed) becomes the device type. */
  function QueryOf(c: ParsedCapabilities): (q: Query)
    ensures q.version == Lower(c.browserVersion) && q.platform == Lower(c.platform)
    ensures IsLower(q.name)
    ensures q.deviceType.Some? <==> StartsWith(Lower(c.browserName), EmulatorPrefix)
    ensures q.deviceType.None? ==> q.name == Lower(c.browserName)
    ensures q.deviceType.Some? ==> q.name == EmulatorPrefix
    ensures q.deviceType.Some? ==> q.deviceType.value == ReplaceFirst(Lower(c.browserName), EmulatorPrefix + " ", "")
  {
    var name := Lower(c.browserName);
    var q := Query(name, Lower(c.browserVersion), Lower(c.platform), None);
    if StartsWith(name, EmulatorPrefix) then
      q.(deviceType := Some(ReplaceFirst(name, EmulatorPrefix + " ", "")), name := EmulatorPrefix)
    else
      q
  }

  /** `Android Emulator <type>` splits into the emulator name and `<type>`:
      rejoining them gives the lowercased name back. */
  lemma EmulatorDeviceType(c: ParsedCapabilities, deviceType: string)
    requires Lower(c.browserName) == EmulatorPrefix + " " + deviceType
    ensures QueryOf(c).name == EmulatorPrefix && QueryOf(c).deviceType == Some(deviceType)
    ensures QueryOf(c).name + " " + QueryOf(c).deviceType.value == Lower(c.browserName)
  {
    var name := Lower(c.browserName);
    var pattern := EmulatorPrefix + " ";
    assert name == pattern + deviceType;
    assert name[..|pattern|] == pattern;
    assert StartsWith(name, EmulatorPrefix) by {
      assert name[..|EmulatorPrefix|] == pattern[..|EmulatorPrefix|];
    }
    ReplaceFirstAtStart(name, pattern, "");
    assert name[|pattern|..] == deviceType;
    assert "" + deviceType == deviceType;
  }

  /** The bare name `Android Emulator` contains no `android emulator ` (with the
      space), so `replace` leaves it whole and it becomes its own device type. */
  lemma BareEmulatorName(c: ParsedCapabilities)
    requires Lower(c.browserName) == EmulatorPrefix
    ensures QueryOf(c).name == EmulatorPrefix && QueryOf(c).deviceType == Some(EmulatorPrefix)
  {
    assert StartsWith(EmulatorPrefix, EmulatorPrefix);
  }

  /** `major` is what `/^\d+/` matches in `version`: a non-empty run of digits
      at its start that the next character does not continue. */
  predicate IsMajorVersion(version: string, major: string) {
    && major != ""
    && StartsWith(version, major)
    && (forall i :: 0 <= i < |major| ==> IsDigit(major[i]))
    && (|major| == |version| || !IsDigit(version[|major|]))
  }

  /** The major version is unique: it is the leading digit run. */
  lemma MajorVersionIsLeadingDigits(version: string, major: string)
    ensures IsMajorVersion(version, major) ==> LeadingDigits(version) == major
  {
    if IsMajorVersion(version, major) {
      assert version == major + version[|major|..];
      LeadingDigitsOfConcat(major, version[|major|..]);
    }
  }

  /** The version test of src/index.js:233-236: the query version is the whole
      version or its major version. */
  function BrowserVersionMatched(version: string, queryVersion: string): (b: bool)
    ensures b <==> version == queryVersion || IsMajorVersion(version, queryVersion)
  {
    MajorVersionIsLeadingDigits(version, queryVersion);
    version == queryVersion || (LeadingDigits(version) != "" && LeadingDigits(version) == queryVersion)
  }

  /** The desktop rule: browser name (case-insensitive), version (exact, major
      or `any`) and platform (case-insensitive or `any`). */
  predicate DesktopBrowserMatched(info: PlatformInfo, q: Query) {
    && info.DesktopInfo?
    && info.browserName != ""
    && Lower(info.browserName) == q.name
    && (BrowserVersionMatched(info.browserVersion, q.version) || q.version == AnyValue)
    && (Lower(info.os) == q.platform || q.platform == AnyValue)
  }

  /** The device rule: device name (case-insensitive) and OS version (exact or
      `any`). It applies to every record that has a `device` key. */
  predicate MobileBrowserMatched(info: PlatformInfo, q: Query) {
    && Device(info).Some?
    && Device(info).value != ""
    && Lower(Device(info).value) == q.name
    && (info.os == q.version || q.version == AnyValue)
  }

  predicate Matches(info: PlatformInfo, q: Query) {
    DesktopBrowserMatched(info, q) || MobileBrowserMatched(info, q)
  }

  /** `_filterPlatformInfo`: the catalog records the query matches. */
  function FilterPlatformInfo(infos: seq<PlatformInfo>, q: Query): (r: seq<PlatformInfo>)
    ensures |r| <= |infos|
    ensures forall x :: x in r <==> x in infos && Matches(x, q)
  {
    if infos == [] then []
    else
      assert infos == [infos[0]] + infos[1..];
      if Matches(infos[0], q) then [infos[0]] + FilterPlatformInfo(infos[1..], q)
      else FilterPlatformInfo(infos[1..], q)
  }

  /** Filtering a concatenation filters each part and keeps their order. */
  lemma {:induction false} FilterConcat(a: seq<PlatformInfo>, b: seq<PlatformInfo>, q: Query)
    ensures FilterPlatformInfo(a + b, q) == FilterPlatformInfo(a, q) + FilterPlatformInfo(b, q)
  {
    if a == [] {
      assert a + b == b;
    } else {
      assert (a + b)[0] == a[0];
      assert (a + b)[1..] == a[1..] + b;
      FilterConcat(a[1..], b, q);
    }
  }

  /** Capability generation uses the first element of the match list
      (src/index.js:290): it is the earliest matching record of the catalog. */
  lemma {:induction false} FirstMatchIsEarliest(infos: seq<PlatformInfo>, q: Query)
    requires FilterPlatformInfo(infos, q) != []
    ensures exists i :: 0 <= i < |infos| && FilterPlatformInfo(infos, q)[0] == infos[i]
              && Matches(infos[i], q) && forall j :: 0 <= j < i ==> !Matches(infos[j], q)
  {
    if Matches(infos[0], q) {
      assert FilterPlatformInfo(infos, q)[0] == infos[0];
    } else {
      var rest := infos[1..];
      FirstMatchIsEarliest(rest, q);
      var i :| 0 <= i < |rest| && FilterPlatformInfo(rest, q)[0] == rest[i]
               && Matches(rest[i], q) && forall j :: 0 <= j < i ==> !Matches(rest[j], q);
      assert infos[i + 1] == rest[i];
      forall j | 0 <= j < i + 1 ensures !Matches(infos[j], q) {
        if j > 0 {
          assert infos[j] == rest[j - 1];
        }
      }
    }
  }

  /** Version `10` selects `10.0586`: a query version equal to the leading digit
      run of a browser version matches it. */
  lemma MajorVersionFallback(major: string, rest: string)
    requires major != [] && forall i :: 0 <= i < |major| ==> IsDigit(major[i])
    requires rest == [] || !IsDigit(rest[0])
    ensures BrowserVersionMatched(major + rest, major)
  {
    LeadingDigitsOfConcat(major, rest);
  }

  lemma MajorVersionExample()
    ensures BrowserVersionMatched("10.0586", "10")
  {
    assert "10.0586" == "10" + ".0586";
    MajorVersionFallback("10", ".0586");
  }

  /** `name@any:any` selects every desktop record with that browser name,
      whatever its version and platform. */
  lemma WildcardCompleteness(infos: seq<PlatformInfo>, q: Query, info: PlatformInfo)
    requires q.version == AnyValue && q.platform == AnyValue
    requires info in infos && info.DesktopInfo? && info.browserName != "" && Lower(info.browserName) == q.name
    ensures info in FilterPlatformInfo(infos, q)
  {
  }

  /** What the capability-string parser gives back for the parts of an alias:
      the same name and version, and `any` in place of a missing platform. */
  function ParsedFromParts(parts: AliasParts): ParsedCapabilities {
    ParsedCapabilities(parts.name, parts.version, if parts.platform == "" then AnyValue else parts.platform)
  }

  lemma LowerEmulatorNames()
    ensures Lower(AndroidEmulator) == EmulatorPrefix
    ensures Lower(AndroidEmulatorTablet) == EmulatorPrefix + " " + "tablet"
    ensures Lower(AndroidEmulatorPhone) == EmulatorPrefix + " " + "phone"
  {
  }

  /** The query keeps a lowercased name whole unless it begins with
      `android emulator` and goes on past it. */
  predicate NameKeptByQuery(name: string) {
    Lower(name) == EmulatorPrefix || !StartsWith(Lower(name), EmulatorPrefix)
  }

  /** A mobile `Android Emulator` record, whose aliases name its Tablet and Phone variants. */
  predicate IsMobileEmulator(info: PlatformInfo) {
    info.MobileInfo? && info.device == AndroidEmulator
  }

  /** The tablet and phone aliases of an emulator record resolve back to it. */
  lemma EmulatorAliasMatches(info: PlatformInfo, v: PlatformInfo)
    requires IsMobileEmulator(info)
    requires v in AliasRecords(info)
    requires IsLower(info.os)
    ensures Matches(info, QueryOf(ParsedFromParts(AliasPartsOf(v))))
  {
    var c := ParsedFromParts(AliasPartsOf(v));
    LowerEmulatorNames();
    if v == WithDevice(info, AndroidEmulatorTablet) {
      EmulatorDeviceType(c, "tablet");
    } else {
      EmulatorDeviceType(c, "phone");
    }
    LowerOfLower(info.os);
    assert MobileBrowserMatched(info, QueryOf(c));
  }

  /** A record resolves back from the alias rendered from its own parts, when
      the query keeps its name whole. */
  lemma PlainAliasMatches(info: PlatformInfo)
    requires AliasPartsOf(info).name != ""
    requires IsLower(AliasPartsOf(info).version)
    requires NameKeptByQuery(AliasPartsOf(info).name)
    ensures Matches(info, QueryOf(ParsedFromParts(AliasPartsOf(info))))
  {
    var parts := AliasPartsOf(info);
    LowerOfLower(parts.version);
    var q := QueryOf(ParsedFromParts(parts));
    assert q.name == Lower(parts.name);
    if info.DesktopInfo? {
      assert DesktopBrowserMatched(info, q);
    } else {
      assert MobileBrowserMatched(info, q);
    }
  }

  /** A listed alias resolves back to the record it was listed for, provided
      the parser returns the alias's own parts. The side conditions: a
      non-empty name, a version without capitals (it is compared with the
      lowercased query version), and, unless the record is a mobile emulator,
      a name the emulator rewrite keeps whole. */
  lemma AliasMatchesItsRecord(info: PlatformInfo, v: PlatformInfo)
    requires v in AliasRecords(info)
    requires AliasPartsOf(v).name != ""
    requires IsLower(AliasPartsOf(v).version)
    requires IsMobileEmulator(info) || NameKeptByQuery(AliasPartsOf(v).name)
    ensures Matches(info, QueryOf(ParsedFromParts(AliasPartsOf(v))))
  {
    if IsMobileEmulator(info) {
      EmulatorAliasMatches(info, v);
    } else {
      assert AliasPartsOf(v) == AliasPartsOf(info);
      PlainAliasMatches(info);
    }
  }

  /** Hence every listed alias passes validation against a catalog that holds
      its record. */
  lemma ListedAliasFindsAMatch(infos: seq<PlatformInfo>, info: PlatformInfo, v: PlatformInfo)
    requires info in infos && v in AliasRecords(info)
    requires AliasPartsOf(v).name != ""
    requires IsLower(AliasPartsOf(v).version)
    requires IsMobileEmulator(info) || NameKeptByQuery(AliasPartsOf(v).name)
    ensures FilterPlatformInfo(infos, QueryOf(ParsedFromParts(AliasPartsOf(v)))) != []
  {
    AliasMatchesItsRecord(info, v);
    assert info in FilterPlatformInfo(infos, QueryOf(ParsedFromParts(AliasPartsOf(v))));
  }
}
