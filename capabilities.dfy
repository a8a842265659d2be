/** Capability sets: the desktop and Appium shapes built for the matched
    record, the capability-file overrides layered on top, and the tunnel
    options. */
module Capabilities {
  import opened Wrappers
  import opened Json
  import opened Catalog
  import opened Resolution

  /** Why no capability set is produced. */
  datatype Error =
    | NoParsedCapabilities        // the parser returned no record; the destructuring of `[0]` throws
    | NoMatchingPlatform          // the match list is empty, so its first element is undefined (src/index.js:290)
    | NonAppiumBackend            // the sanity check of `_generateMobileCapabilities`
    | UnsupportedPlatformGroup(group: Group)  // thrown by `getAppiumBrowserName`

  /** The `platformGroup` string. */
  function GroupName(g: Group): string {
    match g
    case Desktop => "Desktop"
    case Android => "Android"
    case IOS => "iOS"
  }

  /** `getAppiumBrowserName`: Safari on iOS, Chrome on Android, an error otherwise. */
  function AppiumBrowserName(g: Group): (r: Result<string, Error>)
    ensures r.Success? <==> g != Desktop
    ensures g == IOS ==> r == Success("safari")
    ensures g == Android ==> r == Success("chrome")
    ensures r.Failure? ==> r.error == UnsupportedPlatformGroup(g)
  {
    match g
    case IOS => Success("safari")
    case Android => Success("chrome")
    case Desktop => Failure(UnsupportedPlatformGroup(g))
  }

  /** An environment value is truthy when it is set and not empty. */
  predicate IsSet(v: Option<string>) {
    v.Some? && v.value != ""
  }

  /** Adds `key` with `value` when `condition` holds, as the builders do one key at a time. */
  function AddIf(caps: Object, condition: bool, key: string, value: Value): Object {
    if condition then caps[key := value] else caps
  }

  const DesktopKeys: set<string> := {"browserName", "version", "platform", "screenResolution"}
  const MobileKeys: set<string> := {"deviceName", "browserName", "platformName", "platformVersion", "deviceType"}

  /** `_generateDesktopCapabilities`, with `SAUCE_SCREEN_RESOLUTION` passed in:
      the query's browser name always; its version and platform unless they
      are `any`; the screen resolution when the variable is set. */
  function DesktopCapabilities(q: Query, screenResolution: Option<string>): (caps: Object)
    ensures caps.Keys <= DesktopKeys
    ensures "browserName" in caps && caps["browserName"] == JString(q.name)
    ensures "version" in caps <==> q.version != AnyValue
    ensures "version" in caps ==> caps["version"] == JString(q.version)
    ensures "platform" in caps <==> q.platform != AnyValue
    ensures "platform" in caps ==> caps["platform"] == JString(q.platform)
    ensures "screenResolution" in caps <==> IsSet(screenResolution)
    ensures "screenResolution" in caps ==> caps["screenResolution"] == JString(screenResolution.value)
  {
    var caps := map["browserName" := JString(q.name)];
    var caps := AddIf(caps, q.version != AnyValue, "version", JString(q.version));
    var caps := AddIf(caps, q.platform != AnyValue, "platform", JString(q.platform));
    AddIf(caps, IsSet(screenResolution), "screenResolution",
          if screenResolution.Some? then JString(screenResolution.value) else JNull)
  }

  /** `_generateMobileCapabilities`: refused for a backend other than Appium
      and for a desktop record; otherwise the device, the Appium browser and
      the platform group, with the platform version unless it is `any` and
      the device type when the query has one. */
  function MobileCapabilities(q: Query, info: PlatformInfo): (r: Result<Object, Error>)
    ensures info.automationBackend != AppiumBackend ==> r == Failure(NonAppiumBackend)
    ensures info.automationBackend == AppiumBackend && info.DesktopInfo? ==>
              r == Failure(UnsupportedPlatformGroup(Desktop))
    ensures r.Success? <==> info.automationBackend == AppiumBackend && info.MobileInfo?
    ensures r.Success? ==>
              && r.value.Keys <= MobileKeys
              && "deviceName" in r.value && r.value["deviceName"] == JString(info.device)
              && "browserName" in r.value && r.value["browserName"] == JString(if info.group == IOS then "safari" else "chrome")
              && "platformName" in r.value && r.value["platformName"] == JString(GroupName(info.group))
              && ("platformVersion" in r.value <==> q.version != AnyValue)
              && ("platformVersion" in r.value ==> r.value["platformVersion"] == JString(q.version))
              && ("deviceType" in r.value <==> IsSet(q.deviceType))
              && ("deviceType" in r.value ==> r.value["deviceType"] == JString(q.deviceType.value))
  {
    if info.automationBackend != AppiumBackend then Failure(NonAppiumBackend)
    else
      var browserName :- AppiumBrowserName(PlatformGroup(info));
      var caps := map[
        "deviceName" := JString(info.device),
        "browserName" := JString(browserName),
        "platformName" := JString(GroupName(info.group))];
      var caps := AddIf(caps, q.version != AnyValue, "platformVersion", JString(q.version));
      Success(AddIf(caps, IsSet(q.deviceType), "deviceType",
                    if q.deviceType.Some? then JString(q.deviceType.value) else JNull))
  }

  /** `_generateCapabilities`, with the parser's records, `SAUCE_SCREEN_RESOLUTION`
      and the capability-override file passed in. The first matching record
      decides the shape; the overrides win on every key they hold. */
  function CapabilitiesFor(
    infos: seq<PlatformInfo>,
    parsed: seq<ParsedCapabilities>,
    screenResolution: Option<string>,
    overrides: Object): (r: Result<Object, Error>)
    ensures |parsed| == 0 ==> r == Failure(NoParsedCapabilities)
    ensures |parsed| > 0 ==>
              (r == Failure(NoMatchingPlatform) <==> FilterPlatformInfo(infos, QueryOf(parsed[0])) == [])
    ensures |parsed| > 0 && FilterPlatformInfo(infos, QueryOf(parsed[0])) != [] ==>
              var q := QueryOf(parsed[0]);
              var info := FilterPlatformInfo(infos, q)[0];
              && info in infos && Matches(info, q)
              && (info.DesktopInfo? ==> r == Success(Assign(DesktopCapabilities(q, screenResolution), overrides)))
              && (info.MobileInfo? && MobileCapabilities(q, info).Success? ==>
                    r == Success(Assign(MobileCapabilities(q, info).value, overrides)))
              && (info.MobileInfo? && MobileCapabilities(q, info).Failure? ==>
                    r == Failure(MobileCapabilities(q, info).error))
    ensures r.Success? ==> forall k :: k in overrides ==> k in r.value && r.value[k] == overrides[k]
  {
    if |parsed| == 0 then Failure(NoParsedCapabilities)
    else
      var q := QueryOf(parsed[0]);
      var matches := FilterPlatformInfo(infos, q);
      if matches == [] then Failure(NoMatchingPlatform)
      else
        var info := matches[0];
        assert info in matches;
        var caps :- if PlatformGroup(info) == Desktop then Success(DesktopCapabilities(q, screenResolution))
                    else MobileCapabilities(q, info);
        Success(Assign(caps, overrides))
  }

  /** Over a well-formed catalog, generation fails only for want of a parsed
      record or of a match: the Appium sanity check and the unsupported-group
      error cannot fire. */
  lemma WellFormedCatalogFailures(
    infos: seq<PlatformInfo>,
    parsed: seq<ParsedCapabilities>,
    screenResolution: Option<string>,
    overrides: Object)
    requires forall i :: 0 <= i < |infos| ==> WellFormed(infos[i])
    ensures var r := CapabilitiesFor(infos, parsed, screenResolution, overrides);
            r.Failure? ==> r.error == NoParsedCapabilities || r.error == NoMatchingPlatform
  {
    if |parsed| > 0 && FilterPlatformInfo(infos, QueryOf(parsed[0])) != [] {
      var info := FilterPlatformInfo(infos, QueryOf(parsed[0]))[0];
      assert info in FilterPlatformInfo(infos, QueryOf(parsed[0]));
      var i :| 0 <= i < |infos| && infos[i] == info;
      assert WellFormed(info);
    }
  }

  /** The catalog `getAutomationApiInfo` builds is such a catalog. */
  lemma CatalogPassesSanityChecks(
    platforms: seq<RawPlatform>,
    parsed: seq<ParsedCapabilities>,
    screenResolution: Option<string>,
    overrides: Object)
    ensures var r := CapabilitiesFor(AutomationApiInfo(platforms), parsed, screenResolution, overrides);
            r.Failure? ==> r.error == NoParsedCapabilities || r.error == NoMatchingPlatform
  {
    WellFormedCatalogFailures(AutomationApiInfo(platforms), parsed, screenResolution, overrides);
  }

  /** A browser name that passes validation (one parsed record, at least one
      match) yields a capability set over a well-formed catalog. */
  lemma ValidNameGeneratesCapabilities(
    infos: seq<PlatformInfo>,
    parsed: seq<ParsedCapabilities>,
    screenResolution: Option<string>,
    overrides: Object)
    requires forall i :: 0 <= i < |infos| ==> WellFormed(infos[i])
    requires |parsed| == 1 && FilterPlatformInfo(infos, QueryOf(parsed[0])) != []
    ensures CapabilitiesFor(infos, parsed, screenResolution, overrides).Success?
  {
    WellFormedCatalogFailures(infos, parsed, screenResolution, overrides);
  }

  /** `_generateSauceConnectOptions`' defaults: tunnel logging switched off,
      and nothing else. */
  function ConnectDefaults(): (d: Object)
    ensures d.Keys == {"connectorLogging"}
    ensures d["connectorLogging"] == JBool(false)
  {
    map["connectorLogging" := JBool(false)]
  }
}
