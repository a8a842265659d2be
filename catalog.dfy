/** The platform catalog: raw records from the vendor's platform list, the
    normalised `PlatformInfo` records built from them, and the human-readable
    aliases (`Name@Version[:Platform]`) listed for each record. */
module Catalog {
  import opened Wrappers
  import opened Text

  /** One entry of the platform list as the vendor's REST endpoint returns it. */
  datatype RawPlatform = RawPlatform(
    apiName: string,
    automationBackend: string,
    os: string,
    shortVersion: string,
    longName: string)

  /** The values `platformGroup` takes. */
  datatype Group = Desktop | Android | IOS

  type MobileGroup = g: Group | g != Desktop witness Android

  /** A normalised record. A desktop record carries the browser; its `machine`
      is the object's `device` key, present only for Windows (`PC`) and Mac
      systems. A mobile record carries the device and its OS version. */
  datatype PlatformInfo =
    | DesktopInfo(
        automationBackend: string,
        os: string,
        browserName: string,
        browserVersion: string,
        machine: Option<string>)
    | MobileInfo(
        automationBackend: string,
        group: MobileGroup,
        os: string,
        device: string)

  const AppiumBackend := "appium"
  const AndroidEmulator := "Android Emulator"
  const AndroidEmulatorTablet := "Android Emulator Tablet"
  const AndroidEmulatorPhone := "Android Emulator Phone"

  function PlatformGroup(info: PlatformInfo): Group {
    match info
    case DesktopInfo(_, _, _, _, _) => Desktop
    case MobileInfo(_, g, _, _) => g
  }

  /** The record's `device` key, whichever shape it has. */
  function Device(info: PlatformInfo): Option<string> {
    match info
    case DesktopInfo(_, _, _, _, m) => m
    case MobileInfo(_, _, _, d) => Some(d)
  }

  /** A copy of the record with its `device` replaced (src/index.js:198-199). */
  function WithDevice(info: PlatformInfo, d: string): (r: PlatformInfo)
    ensures Device(r) == Some(d)
    ensures PlatformGroup(r) == PlatformGroup(info) && r.os == info.os
    ensures r.automationBackend == info.automationBackend
    ensures r.DesktopInfo? <==> info.DesktopInfo?
    ensures r.DesktopInfo? ==> r.browserName == info.browserName && r.browserVersion == info.browserVersion
  {
    match info
    case DesktopInfo(_, _, _, _, _) => info.(machine := Some(d))
    case MobileInfo(_, _, _, _) => info.(device := d)
  }

  /** The records `FormatAutomationApiData` can produce: mobile records only
      come from the Appium backend. */
  predicate WellFormed(info: PlatformInfo) {
    info.MobileInfo? ==> info.automationBackend == AppiumBackend
  }

  /** The `switch` on `api_name`. */
  function GroupOfApiName(apiName: string): (g: Group)
    ensures g == Android <==> apiName == "android"
    ensures g == IOS <==> apiName == "iphone" || apiName == "ipad"
  {
    if apiName == "android" then Android
    else if apiName == "iphone" || apiName == "ipad" then IOS
    else Desktop
  }

  /** The desktop `device` key: `PC` exactly for Windows systems, `Mac` exactly
      for Mac systems, absent otherwise. */
  function DesktopMachine(os: string): (m: Option<string>)
    ensures m == Some("PC") <==> StartsWith(os, "Windows")
    ensures m == Some("Mac") <==> StartsWith(os, "Mac")
    ensures m == None <==> !StartsWith(os, "Windows") && !StartsWith(os, "Mac")
  {
    if StartsWith(os, "Windows") then
      assert os[..3][0] == os[..7][0] == 'W';
      Some("PC")
    else if StartsWith(os, "Mac") then Some("Mac")
    else None
  }

  /** `formatAutomationApiData`: normalise one raw record, or drop it (`null`)
      when it is a mobile record of a backend other than Appium. */
  function FormatAutomationApiData(p: RawPlatform): (r: Option<PlatformInfo>)
    ensures r.None? <==> GroupOfApiName(p.apiName) != Desktop && p.automationBackend != AppiumBackend
    ensures r.Some? ==> PlatformGroup(r.value) == GroupOfApiName(p.apiName)
    ensures r.Some? ==> r.value.automationBackend == p.automationBackend && WellFormed(r.value)
    ensures r.Some? && r.value.DesktopInfo? ==>
              r.value == DesktopInfo(p.automationBackend, p.os, p.apiName, p.shortVersion, DesktopMachine(p.os))
    ensures r.Some? && r.value.MobileInfo? ==> r.value.os == p.shortVersion && r.value.device == p.longName
  {
    var group := GroupOfApiName(p.apiName);
    if group == Desktop then
      Some(DesktopInfo(p.automationBackend, p.os, p.apiName, p.shortVersion, DesktopMachine(p.os)))
    else if p.automationBackend == AppiumBackend then
      Some(MobileInfo(p.automationBackend, group, p.shortVersion, p.longName))
    else
      None
  }

  /** `getAutomationApiInfo` once the platform list is fetched: every record
      normalised, the dropped ones removed, in input order (src/index.js:92-94). */
  function AutomationApiInfo(platforms: seq<RawPlatform>): (r: seq<PlatformInfo>)
    ensures |r| <= |platforms|
    ensures forall i :: 0 <= i < |r| ==> WellFormed(r[i])
  {
    if platforms == [] then []
    else
      var rest := AutomationApiInfo(platforms[1..]);
      match FormatAutomationApiData(platforms[0])
      case Some(info) => [info] + rest
      case None => rest
  }

  /** The catalog of a concatenation is the concatenation of the catalogs: the
      kept records stay in input order. */
  lemma {:induction false} AutomationApiInfoConcat(a: seq<RawPlatform>, b: seq<RawPlatform>)
    ensures AutomationApiInfo(a + b) == AutomationApiInfo(a) + AutomationApiInfo(b)
  {
    if a == [] {
      assert a + b == b;
    } else {
      assert (a + b)[0] == a[0];
      assert (a + b)[1..] == a[1..] + b;
      AutomationApiInfoConcat(a[1..], b);
    }
  }

  /** The catalog holds exactly the non-null normalised records. */
  lemma {:induction false} AutomationApiInfoMembers(platforms: seq<RawPlatform>, x: PlatformInfo)
    ensures x in AutomationApiInfo(platforms) <==>
              exists p :: p in platforms && FormatAutomationApiData(p) == Some(x)
  {
    if platforms != [] {
      var rest := platforms[1..];
      AutomationApiInfoMembers(rest, x);
      assert platforms == [platforms[0]] + rest;
      if x in AutomationApiInfo(platforms) && FormatAutomationApiData(platforms[0]) != Some(x) {
        assert x in AutomationApiInfo(rest);
        var p :| p in rest && FormatAutomationApiData(p) == Some(x);
        assert p in platforms;
      }
      if p :| p in platforms && FormatAutomationApiData(p) == Some(x) {
        if p != platforms[0] {
          assert p in rest;
        }
      }
    }
  }

  /** The parts an alias is rendered from: name, version and (for desktop) platform. */
  datatype AliasParts = AliasParts(name: string, version: string, platform: string)

  function AliasPartsOf(info: PlatformInfo): AliasParts {
    match info
    case DesktopInfo(_, os, browserName, browserVersion, _) => AliasParts(browserName, browserVersion, os)
    case MobileInfo(_, _, os, device) => AliasParts(device, os, "")
  }

  /** The name, `@`, the version, and a colon with the platform when the
      platform is not empty (src/index.js:207). */
  function RenderAlias(parts: AliasParts): string {
    parts.name + "@" + parts.version + (if parts.platform != "" then ":" + parts.platform else "")
  }

  /** The records an alias is rendered for: an `Android Emulator` record stands
      for a tablet and a phone variant, every other record for itself. */
  function AliasRecords(info: PlatformInfo): (r: seq<PlatformInfo>)
    ensures |r| == if Device(info) == Some(AndroidEmulator) then 2 else 1
    ensures Device(info) != Some(AndroidEmulator) ==> r == [info]
    ensures Device(info) == Some(AndroidEmulator) ==>
              Device(r[0]) == Some(AndroidEmulatorTablet) && Device(r[1]) == Some(AndroidEmulatorPhone)
    ensures forall j :: 0 <= j < |r| ==> Device(r[j]) != Some(AndroidEmulator)
    ensures forall j :: 0 <= j < |r| ==>
              && PlatformGroup(r[j]) == PlatformGroup(info) && r[j].os == info.os
              && r[j].automationBackend == info.automationBackend
    ensures info.DesktopInfo? ==> forall j :: 0 <= j < |r| ==> AliasPartsOf(r[j]) == AliasPartsOf(info)
  {
    if Device(info) == Some(AndroidEmulator) then
      [WithDevice(info, AndroidEmulatorTablet), WithDevice(info, AndroidEmulatorPhone)]
    else [info]
  }

  /** `_createAliasesForPlatformInfo`, with its one level of nesting flattened:
      two aliases for an `Android Emulator` record, one for any other. */
  function CreateAliases(info: PlatformInfo): (r: seq<string>)
    decreases if Device(info) == Some(AndroidEmulator) then 1 else 0
    ensures |r| == |AliasRecords(info)|
    ensures forall i :: 0 <= i < |r| ==> r[i] == RenderAlias(AliasPartsOf(AliasRecords(info)[i]))
  {
    if Device(info) == Some(AndroidEmulator) then
      CreateAliases(WithDevice(info, AndroidEmulatorTablet)) + CreateAliases(WithDevice(info, AndroidEmulatorPhone))
    else
      [RenderAlias(AliasPartsOf(info))]
  }

  /** A mobile `Android Emulator` record is listed as exactly two aliases, one
      per variant, that differ only in the device name. */
  lemma MobileEmulatorAliases(info: PlatformInfo)
    requires info.MobileInfo? && info.device == AndroidEmulator
    ensures CreateAliases(info) == [AndroidEmulatorTablet + "@" + info.os, AndroidEmulatorPhone + "@" + info.os]
  {
    var r := CreateAliases(info);
    assert |r| == 2;
    var tablet, phone := AndroidEmulatorTablet + "@" + info.os, AndroidEmulatorPhone + "@" + info.os;
    assert r[0] == RenderAlias(AliasPartsOf(AliasRecords(info)[0])) == tablet + "";
    assert r[1] == RenderAlias(AliasPartsOf(AliasRecords(info)[1])) == phone + "";
    assert tablet + "" == tablet && phone + "" == phone;
    assert r == [r[0], r[1]];
  }

  /** Any other record gets one alias: `browserName@browserVersion:os` for a
      desktop record (no `:` when `os` is empty), `device@os` for a mobile one. */
  lemma SingleAlias(info: PlatformInfo)
    requires Device(info) != Some(AndroidEmulator)
    ensures info.DesktopInfo? && info.os != "" ==>
              CreateAliases(info) == [info.browserName + "@" + info.browserVersion + ":" + info.os]
    ensures info.DesktopInfo? && info.os == "" ==>
              CreateAliases(info) == [info.browserName + "@" + info.browserVersion]
    ensures info.MobileInfo? ==> CreateAliases(info) == [info.device + "@" + info.os]
  {
    var r := CreateAliases(info);
    assert |r| == 1;
    var p := AliasPartsOf(info);
    assert r[0] == RenderAlias(p);
    var head := p.name + "@" + p.version;
    if p.platform != "" {
      assert RenderAlias(p) == head + ":" + p.platform;
    } else {
      assert RenderAlias(p) == head + "";
      assert head + "" == head;
    }
    assert r == [r[0]];
  }

  /** The aliases of every record, in catalog order, flattened one level
      (src/index.js:188-190). */
  function AllAliases(infos: seq<PlatformInfo>): seq<string> {
    if infos == [] then [] else CreateAliases(infos[0]) + AllAliases(infos[1..])
  }

  function EmulatorCount(infos: seq<PlatformInfo>): nat {
    if infos == [] then 0
    else (if Device(infos[0]) == Some(AndroidEmulator) then 1 else 0) + EmulatorCount(infos[1..])
  }

  /** One alias per record plus one more per `Android Emulator` record. */
  lemma {:induction false} AllAliasesLength(infos: seq<PlatformInfo>)
    ensures |AllAliases(infos)| == |infos| + EmulatorCount(infos)
  {
    if infos != [] {
      AllAliasesLength(infos[1..]);
    }
  }

  /** An alias is listed exactly when some record of the catalog produces it. */
  lemma {:induction false} AllAliasesMembers(infos: seq<PlatformInfo>, a: string)
    ensures a in AllAliases(infos) <==> exists i :: 0 <= i < |infos| && a in CreateAliases(infos[i])
  {
    if infos != [] {
      AllAliasesMembers(infos[1..], a);
      if a in AllAliases(infos) && a !in CreateAliases(infos[0]) {
        var i :| 0 <= i < |infos[1..]| && a in CreateAliases(infos[1..][i]);
        assert infos[i + 1] == infos[1..][i];
      }
      if i :| 0 <= i < |infos| && a in CreateAliases(infos[i]) {
        if i > 0 {
          assert infos[1..][i - 1] == infos[i];
        }
      }
    }
  }

  /** Every listed alias is the rendering of one of the alias records of some
      catalog record. */
  lemma ListedAliasRecord(infos: seq<PlatformInfo>, a: string)
    requires a in AllAliases(infos)
    ensures exists i, j :: 0 <= i < |infos| && 0 <= j < |AliasRecords(infos[i])|
              && a == RenderAlias(AliasPartsOf(AliasRecords(infos[i])[j]))
  {
    AllAliasesMembers(infos, a);
    var i :| 0 <= i < |infos| && a in CreateAliases(infos[i]);
    var j :| 0 <= j < |CreateAliases(infos[i])| && CreateAliases(infos[i])[j] == a;
    assert a == RenderAlias(AliasPartsOf(AliasRecords(infos[i])[j]));
  }
}
