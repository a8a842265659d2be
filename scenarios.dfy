/** Concrete resolutions on small catalogs: the behaviour the provider's own
    tests pin down, stated as lemmas about the model. */
module Scenarios {
  import opened Wrappers
  import opened Text
  import opened Json
  import opened Catalog
  import opened Resolution
  import opened Capabilities

  /** A desktop Chrome 88.0 entry on macOS 11.00, as the platform list has it. */
  const ChromeMac: RawPlatform := RawPlatform("chrome", "webdriver", "macOS 11.00", "88.0", "Google Chrome")

  /** An Appium Android emulator entry with OS version 4.4. */
  const EmulatorRaw: RawPlatform := RawPlatform("android", "appium", "Linux", "4.4", "Android Emulator")

  /** The same emulator served by a backend other than Appium. */
  const EmulatorWebdriver: RawPlatform := RawPlatform("android", "webdriver", "Linux", "4.4", "Android Emulator")

  /** The non-Appium emulator entry is dropped. `macOS 11.00` does not begin
      with `Mac` (the case differs), so that entry gets no `device` key. */
  lemma NormalisedEntries()
    ensures AutomationApiInfo([ChromeMac, EmulatorWebdriver, EmulatorRaw]) ==
              [DesktopInfo("webdriver", "macOS 11.00", "chrome", "88.0", None),
               MobileInfo("appium", Android, "4.4", "Android Emulator")]
  {
    assert "macOS 11.00"[0] == 'm';
    AutomationApiInfoConcat([ChromeMac], [EmulatorWebdriver, EmulatorRaw]);
    AutomationApiInfoConcat([EmulatorWebdriver], [EmulatorRaw]);
  }

  /** `Chrome@88.0:macOS 11.00` gives the lowercased browser, version and
      platform; the screen resolution and the override file add their keys. */
  lemma DesktopChrome(screenResolution: Option<string>, overrides: Object)
    requires screenResolution == None || screenResolution == Some("1920x1200")
    requires overrides == map[] || overrides == map["extendedDebugging" := JBool(true)]
    ensures var base := map["browserName" := JString("chrome"), "version" := JString("88.0"),
                            "platform" := JString("macos 11.00")];
            var withResolution := if screenResolution.Some? then base["screenResolution" := JString("1920x1200")] else base;
            CapabilitiesFor([DesktopInfo("webdriver", "macOS 11.00", "chrome", "88.0", None)],
                            [ParsedCapabilities("Chrome", "88.0", "macOS 11.00")], screenResolution, overrides)
              == Success(withResolution + overrides)
  {
    var info := DesktopInfo("webdriver", "macOS 11.00", "chrome", "88.0", None);
    var q := QueryOf(ParsedCapabilities("Chrome", "88.0", "macOS 11.00"));
    assert q == Query("chrome", "88.0", "macos 11.00", None);
    assert Matches(info, q);
    assert FilterPlatformInfo([info], q) == [info];
  }

  /** `Android Emulator Tablet@4.4` resolves to the emulator entry with the
      device type `tablet`. */
  lemma EmulatorTablet()
    ensures CapabilitiesFor([MobileInfo("appium", Android, "4.4", "Android Emulator")],
                            [ParsedCapabilities("Android Emulator Tablet", "4.4", AnyValue)], None, map[])
              == Success(map["deviceName" := JString("Android Emulator"), "browserName" := JString("chrome"),
                             "platformName" := JString("Android"), "platformVersion" := JString("4.4"),
                             "deviceType" := JString("tablet")])
  {
    var info := MobileInfo("appium", Android, "4.4", "Android Emulator");
    var q := EmulatorTabletQuery();
    assert MobileBrowserMatched(info, q) by {
      LowerEmulatorNames();
    }
    assert FilterPlatformInfo([info], q) == [info];
    assert IsSet(q.deviceType);
    var caps := map["deviceName" := JString("Android Emulator"), "browserName" := JString("chrome"),
                    "platformName" := JString("Android"), "platformVersion" := JString("4.4"),
                    "deviceType" := JString("tablet")];
    assert MobileCapabilities(q, info) == Success(caps);
    assert Assign(caps, map[]) == caps;
  }

  lemma EmulatorTabletQuery() returns (q: Query)
    ensures q == QueryOf(ParsedCapabilities("Android Emulator Tablet", "4.4", AnyValue))
    ensures q == Query(EmulatorPrefix, "4.4", AnyValue, Some("tablet"))
  {
    var c := ParsedCapabilities("Android Emulator Tablet", "4.4", AnyValue);
    LowerEmulatorNames();
    EmulatorDeviceType(c, "tablet");
    q := QueryOf(c);
  }

  /** A version the catalog does not carry matches nothing. */
  lemma UnknownVersion()
    ensures CapabilitiesFor([DesktopInfo("webdriver", "macOS 11.00", "chrome", "88.0", None)],
                            [ParsedCapabilities("Chrome", "5.0", AnyValue)], None, map[])
              == Failure(NoMatchingPlatform)
  {
    var q := QueryOf(ParsedCapabilities("Chrome", "5.0", AnyValue));
    assert q == Query("chrome", "5.0", AnyValue, None);
    assert LeadingDigits("88.0") == "88" by {
      assert "88.0" == "88" + ".0";
      LeadingDigitsOfConcat("88", ".0");
    }
  }

  /** Tunnel options: `connectorLogging: false` alone without overrides, kept
      beside the keys of an override file that does not mention it. */
  lemma ConnectOptions()
    ensures Assign(ConnectDefaults(), map[]) == map["connectorLogging" := JBool(false)]
    ensures Assign(ConnectDefaults(), map["noSslBumpDomains" := JString("all")])
              == map["connectorLogging" := JBool(false), "noSslBumpDomains" := JString("all")]
  {
  }
}
