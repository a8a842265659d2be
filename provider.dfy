/** The provider object: the catalog and browser list it keeps, and the
    methods that resolve a browser alias to a capability set. */
module BrowserProvider {
  import opened Wrappers
  import opened Text
  import opened Sorting
  import opened Json
  import opened Catalog
  import opened Resolution
  import opened Capabilities

  /** `formatAutomationApiData` as the source builds its object: the group from
      the `switch`, then the keys of that group's shape. */
  method FormatPlatform(p: RawPlatform) returns (r: Option<PlatformInfo>)
    ensures r == FormatAutomationApiData(p)
  {
    var group: Group;
    if p.apiName == "android" {
      group := Android;
    } else if p.apiName == "iphone" || p.apiName == "ipad" {
      group := IOS;
    } else {
      group := Desktop;
    }
    if group == Desktop {
      var machine: Option<string> := None;
      if StartsWith(p.os, "Windows") {
        machine := Some("PC");
      } else if StartsWith(p.os, "Mac") {
        machine := Some("Mac");
      }
      r := Some(DesktopInfo(p.automationBackend, p.os, p.apiName, p.shortVersion, machine));
    } else if p.automationBackend == AppiumBackend {
      r := Some(MobileInfo(p.automationBackend, group, p.shortVersion, p.longName));
    } else {
      r := None;
    }
  }

  class Provider {
    /** `platformsInfo`: the normalised catalog. */
    var platformsInfo: seq<PlatformInfo>
    /** `availableBrowserNames`: the sorted alias list; absent until an `init`
        succeeds. */
    var availableBrowserNames: Option<seq<string>>

    /** The catalog holds only records normalisation can produce, and the
        browser list, once there, is the sorted alias list of the catalog. */
    ghost predicate Valid()
      reads this
    {
      && (forall i :: 0 <= i < |platformsInfo| ==> WellFormed(platformsInfo[i]))
      && (availableBrowserNames.Some? ==> availableBrowserNames.value == SortStrings(AllAliases(platformsInfo)))
    }

    /** The object literal: an empty catalog and no browser list. */
    constructor()
      ensures Valid()
      ensures platformsInfo == [] && availableBrowserNames == None
    {
      platformsInfo := [];
      availableBrowserNames := None;
    }

    /** `_fetchPlatformInfoAndAliases`, with the fetched platform list passed in
        (`None` when the response body is not JSON). Without a list the
        `.map` call throws before either field is assigned. */
    method FetchPlatformInfoAndAliases(fetched: Option<seq<RawPlatform>>) returns (ok: bool)
      requires Valid()
      modifies this
      ensures Valid()
      ensures ok <==> fetched.Some?
      ensures !ok ==> platformsInfo == old(platformsInfo) && availableBrowserNames == old(availableBrowserNames)
      ensures ok ==> platformsInfo == AutomationApiInfo(fetched.value)
      ensures ok ==> availableBrowserNames == Some(SortStrings(AllAliases(platformsInfo)))
    {
      if fetched.None? {
        return false;
      }
      platformsInfo := AutomationApiInfo(fetched.value);
      var unstructuredBrowserNames := AllAliases(platformsInfo);
      availableBrowserNames := Some(SortStrings(unstructuredBrowserNames));
      ok := true;
    }

    /** `_createQuery` on the parser's records, updating the query in place as
        the source does. */
    method CreateQuery(parsed: seq<ParsedCapabilities>) returns (r: Result<Query, Error>)
      ensures |parsed| == 0 ==> r == Failure(NoParsedCapabilities)
      ensures |parsed| > 0 ==> r == Success(QueryOf(parsed[0]))
    {
      if |parsed| == 0 {
        return Failure(NoParsedCapabilities);
      }
      var c := parsed[0];
      var query := Query(Lower(c.browserName), Lower(c.browserVersion), Lower(c.platform), None);
      if StartsWith(query.name, EmulatorPrefix) {
        query := query.(deviceType := Some(ReplaceFirst(query.name, EmulatorPrefix + " ", "")));
        query := query.(name := EmulatorPrefix);
      }
      r := Success(query);
    }

    /** `_generateDesktopCapabilities`, adding each key in turn. */
    method GenerateDesktopCapabilities(q: Query, screenResolution: Option<string>) returns (caps: Object)
      ensures caps == DesktopCapabilities(q, screenResolution)
    {
      caps := map["browserName" := JString(q.name)];
      if q.version != AnyValue {
        caps := caps["version" := JString(q.version)];
      }
      if q.platform != AnyValue {
        caps := caps["platform" := JString(q.platform)];
      }
      if IsSet(screenResolution) {
        caps := caps["screenResolution" := JString(screenResolution.value)];
      }
    }

    /** `_generateMobileCapabilities`, adding each key in turn. */
    method GenerateMobileCapabilities(q: Query, info: PlatformInfo) returns (r: Result<Object, Error>)
      ensures r == MobileCapabilities(q, info)
    {
      if info.automationBackend != AppiumBackend {
        return Failure(NonAppiumBackend);
      }
      var browserName :- AppiumBrowserName(PlatformGroup(info));
      var caps := map[
        "deviceName" := JString(info.device),
        "browserName" := JString(browserName),
        "platformName" := JString(GroupName(info.group))];
      if q.version != AnyValue {
        caps := caps["platformVersion" := JString(q.version)];
      }
      if IsSet(q.deviceType) {
        caps := caps["deviceType" := JString(q.deviceType.value)];
      }
      r := Success(caps);
    }

    /** `_generateCapabilities`: query, first match, shape by the match's
        group, overrides on top. */
    method GenerateCapabilities(parsed: seq<ParsedCapabilities>, screenResolution: Option<string>, overrides: Object)
      returns (r: Result<Object, Error>)
      ensures r == CapabilitiesFor(platformsInfo, parsed, screenResolution, overrides)
      ensures Valid() && r.Failure? ==> r.error == NoParsedCapabilities || r.error == NoMatchingPlatform
    {
      if Valid() {
        WellFormedCatalogFailures(platformsInfo, parsed, screenResolution, overrides);
      }
      var query :- CreateQuery(parsed);
      var matches := FilterPlatformInfo(platformsInfo, query);
      if matches == [] {
        return Failure(NoMatchingPlatform);
      }
      var platformInfo := matches[0];
      var capabilities: Object;
      if PlatformGroup(platformInfo) == Desktop {
        capabilities := GenerateDesktopCapabilities(query, screenResolution);
      } else {
        capabilities :- GenerateMobileCapabilities(query, platformInfo);
      }
      r := Success(Assign(capabilities, overrides));
    }

    /** `_generateSauceConnectOptions`: the overrides over `connectorLogging: false`. */
    method GenerateSauceConnectOptions(overrides: Object) returns (options: Object)
      ensures options.Keys == overrides.Keys + {"connectorLogging"}
      ensures forall k :: k in overrides ==> options[k] == overrides[k]
      ensures "connectorLogging" !in overrides ==> options["connectorLogging"] == JBool(false)
    {
      var defaults := ConnectDefaults();
      options := Assign(defaults, overrides);
    }

    /** `isValidBrowserName`: exactly one parsed record, and the catalog has a
        match for its query. */
    method IsValidBrowserName(parsed: seq<ParsedCapabilities>) returns (valid: bool)
      ensures valid <==> |parsed| == 1 && FilterPlatformInfo(platformsInfo, QueryOf(parsed[0])) != []
    {
      if |parsed| != 1 {
        return false;
      }
      var query := CreateQuery(parsed);
      var matches := FilterPlatformInfo(platformsInfo, query.value);
      valid := |matches| != 0;
    }

    /** `getBrowserList`: the stored list, sorted, a permutation of the
        catalog's aliases, one per record plus one per `Android Emulator`
        record. */
    method GetBrowserList() returns (names: Option<seq<string>>)
      requires Valid()
      ensures names == availableBrowserNames
      ensures names.Some? ==> Sorted(names.value)
      ensures names.Some? ==> multiset(names.value) == multiset(AllAliases(platformsInfo))
      ensures names.Some? ==> |names.value| == |platformsInfo| + EmulatorCount(platformsInfo)
    {
      names := availableBrowserNames;
      AllAliasesLength(platformsInfo);
    }
  }
}
