# Sauce Labs browser provider: catalog and capability resolution

This project models the part of `src/index.js` (the TestCafe browser provider for Sauce Labs) that
turns the vendor's platform list into a catalog and resolves a browser alias against it. It covers:

- **Normalisation.** Each raw platform record (`api_name`, `automation_backend`, `os`,
  `short_version`, `long_name`) becomes a `PlatformInfo` record. The record is a desktop record
  (browser, version, OS, and a `device` of `PC` or `Mac`) or a mobile record (device and OS
  version). Mobile records from backends other than Appium are dropped.
- **Aliases and the browser list.** Each record is rendered as `Name@Version[:Platform]`. An
  `Android Emulator` record stands for a Tablet and a Phone variant. The provider object keeps
  the catalog and the sorted alias list in its fields.
- **Queries and matching.** The parsed alias is lowercased. The `android emulator` prefix is
  split off into a device type. Catalog records are kept by a desktop rule (name, version or
  major version, platform, `any` wildcards) or a device rule (device name, OS version).
- **Capability sets.** The first match decides between the desktop shape and the Appium shape.
  The capability-override file is layered on top. Tunnel options are the override file layered
  over `connectorLogging: false`.
- **Window sizing.** `getCorrectedSize` keeps the browser chrome when resizing.

Modules:

- `Wrappers`: Option and Result.
- `Text`: ASCII lowercasing, prefix tests, first-occurrence `replace`, and the leading digit run
  matched by `/^\d+/`.
- `Sorting`: the default string sort.
- `Json`: override values and `Object.assign`.
- `Catalog`: normalisation and aliases.
- `Resolution`: queries and matching.
- `Capabilities`: capability shapes and error cases.
- `Window`: window sizing.
- `BrowserProvider`: the provider object as a class whose methods update the catalog fields and
  build queries and capability sets step by step.
- `Scenarios`: concrete resolutions.

The environment values and the external pieces become inputs:

- `SAUCE_SCREEN_RESOLUTION`: an `Option<string>`. It counts as set when present and not empty.
- The contents of the two override files: maps. A missing or unreadable file is `{}`.
- The result of the platform-list request: `None` when the body is not JSON.
- The output of the `desired-capabilities` parser: a sequence of (browser name, version,
  platform) records.

Behaviour of the code worth knowing:

- A platform list that is not JSON makes `fetchPlatforms` return `null`, and the following `.map`
  throws. The model does **not** degrade this to an empty catalog. `FetchPlatformInfoAndAliases`
  reports failure and leaves both fields as they were.
- The Appium browser name is `safari` (lower case) for iOS and `chrome` for Android.
- The browser list is sorted but not de-duplicated: duplicate aliases stay in it.
- The catalog is built from one REST platform list, in the order the list has.
- `availableBrowserNames` is absent until the first successful `init`, because the object
  literal declares `availableAliases` instead. The model uses an `Option` for it.

Edge cases the model keeps as the code has them:

- A browser name that is exactly `android emulator` gets the device type `android emulator`. The
  prefix test has no trailing space, but the `replace` pattern does.
- The device rule applies to any record with a `device` key, including desktop `PC`/`Mac`
  records.
- `os` values such as `macOS 11.00` do not start with `Mac`, so such records get no `device`
  key.
- A record version with capital letters can never equal the lowercased query version.

## Model

| member | source | states |
|---|---|---|
| Catalog.GroupOfApiName | src/index.js:51-61 | `android` is Android; `iphone` and `ipad` are iOS; everything else is Desktop (both directions) |
| Catalog.DesktopMachine | src/index.js:73-76 | device `PC` iff the OS starts with `Windows`, `Mac` iff it starts with `Mac`, absent iff neither |
| Catalog.FormatAutomationApiData | src/index.js:48-87 | null exactly for a mobile record of a non-Appium backend; otherwise the group from `api_name`, the backend kept, the desktop fields, or mobile `os = short_version` and `device = long_name` |
| BrowserProvider.FormatPlatform | src/index.js:48-87 | building the record key by key gives the normalised record |
| Catalog.AutomationApiInfo | src/index.js:89-95 | never longer than the platform list; every kept record is well formed (mobile only from Appium) |
| Catalog.AutomationApiInfoConcat | src/index.js:92-94 | the catalog of a concatenation is the concatenation of the catalogs, so input order is kept |
| Catalog.AutomationApiInfoMembers | src/index.js:92-94 | a record is in the catalog iff some raw record normalises to it |
| Catalog.WithDevice | src/index.js:198-199 | the copy has the new device and the same shape, group, OS and backend; a desktop copy keeps its browser name and version |
| Catalog.AliasRecords | src/index.js:196-200 | for an `Android Emulator` device, two copies whose devices are `Android Emulator Tablet` and `Android Emulator Phone`; otherwise the record itself; none of them is an `Android Emulator` again; each keeps the group, OS and backend, and a desktop one keeps the alias parts |
| Catalog.RenderAlias | src/index.js:207 | `name@version`, followed by `:platform` when the platform is not empty |
| Catalog.CreateAliases | src/index.js:195-208 | one alias per alias record, each the rendering of that record's name, version and platform |
| Catalog.MobileEmulatorAliases | src/index.js:196-201 | an `Android Emulator` device gives exactly the Tablet and Phone aliases, which differ only in the device |
| Catalog.SingleAlias | src/index.js:203-207 | any other desktop record gives `browserName@browserVersion:os` (no `:` for an empty OS); a mobile one gives `device@os` |
| Catalog.AllAliases | src/index.js:188-190 | the aliases of every record in catalog order, flattened one level |
| Catalog.AllAliasesLength | src/index.js:188-190 | the flattened list has one alias per record plus one per `Android Emulator` record |
| Catalog.AllAliasesMembers | src/index.js:188-190 | an alias is listed iff some record produces it |
| Catalog.ListedAliasRecord | src/index.js:188-190 | every listed alias is the rendering of an alias record of some catalog record |
| Sorting.SortStrings | src/index.js:192 | the result is sorted and a permutation of the input |
| Sorting.LessEqTotal | src/index.js:192 | the string order is total |
| Sorting.LessEqTransitive | src/index.js:192 | the string order is transitive |
| Text.Lower | src/index.js:214-216 | same length, each character lowered, the result has no capitals |
| Text.ReplaceFirst | src/index.js:220 | only the first occurrence is replaced; no occurrence leaves the string unchanged |
| Text.LeadingDigits | src/index.js:233-234 | the longest prefix made only of digits |
| Text.LeadingDigitsOfConcat | src/index.js:233-234 | a digit run followed by a non-digit has that run as its match |
| Resolution.QueryOf | src/index.js:210-225 | the three fields lowercased; a device type iff the name starts with `android emulator`, then the name is `android emulator` and the device type is the name with its first `android emulator ` removed |
| BrowserProvider.Provider.CreateQuery | src/index.js:210-225 | no parsed record is an error; otherwise updating the query in place gives that query |
| Resolution.EmulatorDeviceType | src/index.js:219-222 | `android emulator <type>` splits into the emulator name and `<type>`, and joining them gives the name back |
| Resolution.BareEmulatorName | src/index.js:219-222 | the bare emulator name becomes its own device type |
| Resolution.BrowserVersionMatched | src/index.js:233-236 | true iff the query version is the whole record version or its major version: a non-empty digit run at its start that the next character does not continue |
| Resolution.MajorVersionIsLeadingDigits | src/index.js:233-234 | a major version in that sense is exactly what `/^\d+/` matches |
| Resolution.DesktopBrowserMatched | src/index.js:230-246 | the desktop rule: a non-empty browser name equal to the query name once lowercased, a matching or `any` version, and a lowercased OS equal to the query platform or `any` |
| Resolution.MobileBrowserMatched | src/index.js:231-249 | the device rule: a non-empty `device` equal to the query name once lowercased, and an OS equal to the query version or `any`; it applies to every record with a `device` |
| Resolution.Matches | src/index.js:251 | the desktop rule or the device rule |
| Resolution.FilterPlatformInfo | src/index.js:227-253 | a record is kept iff it is in the catalog and meets the desktop or the device rule |
| Resolution.FilterConcat | src/index.js:227-253 | filtering keeps catalog order (an order-preserving subsequence) |
| Resolution.FirstMatchIsEarliest | src/index.js:290 | the match used is the earliest matching catalog record |
| Resolution.MajorVersionFallback | src/index.js:233-236 | a query version equal to the leading digit run of a record's version matches it |
| Resolution.MajorVersionExample | src/index.js:233-236 | version `10` matches `10.0586` |
| Resolution.WildcardCompleteness | src/index.js:241-246 | `name@any:any` keeps every desktop record with that browser name |
| Resolution.EmulatorAliasMatches | src/index.js:195-253 | for a mobile emulator record whose OS version has no capitals, the Tablet and Phone aliases resolve back to it |
| Resolution.PlainAliasMatches | src/index.js:195-253 | a record's own alias resolves back to it when its name is not empty, its version has no capitals and the query keeps its name whole (including a name that is exactly `android emulator`) |
| Resolution.AliasMatchesItsRecord | src/index.js:195-253 | a listed alias matches its own record, for mobile emulator records, desktop records whose device is `Android Emulator`, and all others, under the side conditions above |
| Resolution.ListedAliasFindsAMatch | src/index.js:195-253 | a listed alias has a non-empty match list against a catalog holding its record, under the same side conditions |
| Capabilities.AppiumBrowserName | src/index.js:107-115 | `safari` for iOS, `chrome` for Android, an unsupported-group error for Desktop |
| Capabilities.DesktopCapabilities | src/index.js:275-286 | `browserName` always; `version` iff the version is not `any`, `platform` iff the platform is not `any`, `screenResolution` iff it is set; nothing else |
| BrowserProvider.Provider.GenerateDesktopCapabilities | src/index.js:275-286 | adding the keys one by one gives the desktop shape |
| Capabilities.MobileCapabilities | src/index.js:255-273 | a non-Appium backend is an error; a desktop record is an unsupported-group error; otherwise device, Appium browser and platform group, plus `platformVersion` iff not `any` and `deviceType` iff present |
| BrowserProvider.Provider.GenerateMobileCapabilities | src/index.js:255-273 | adding the keys one by one gives the Appium shape |
| Capabilities.CapabilitiesFor | src/index.js:288-305 | no parsed record, or no match, is an error; otherwise the earliest match's group picks the shape, and every override key carries the override's value |
| BrowserProvider.Provider.GenerateCapabilities | src/index.js:288-305 | the provider's result is the capability set resolved against its catalog; with the object invariant, it fails only for want of a parsed record or of a match |
| Capabilities.WellFormedCatalogFailures | src/index.js:255-258 | over a well-formed catalog, only the no-record and no-match errors can occur |
| Capabilities.CatalogPassesSanityChecks | src/index.js:255-258 | a normalised catalog never reaches the Appium sanity error or the unsupported-group error |
| Capabilities.ValidNameGeneratesCapabilities | src/index.js:355-357 | a name that passes validation yields capabilities |
| Json.Assign | src/index.js:301-304 | union of the keys; override keys carry the override's value; other keys keep the base value |
| Json.AssignNothing | src/index.js:296-299 | an empty override (missing file) changes nothing |
| Capabilities.ConnectDefaults | src/index.js:173-175 | the default tunnel options hold `connectorLogging: false` and nothing else |
| BrowserProvider.Provider.GenerateSauceConnectOptions | src/index.js:172-183 | the keys of the overrides plus `connectorLogging`; override keys carry the override's value; `connectorLogging` is `false` unless overridden |
| BrowserProvider.Provider.IsValidBrowserName | src/index.js:355-357 | valid iff the parser gives exactly one record and its query matches a catalog record |
| BrowserProvider.Provider.constructor | src/index.js:117-122 | an empty catalog and no browser list |
| BrowserProvider.Provider.FetchPlatformInfoAndAliases | src/index.js:185-193 | without a list it fails and changes nothing; otherwise the catalog is normalised from the list and the browser list is its aliases, sorted; the object invariant is kept |
| BrowserProvider.Provider.GetBrowserList | src/index.js:359-361 | the stored list is sorted, a permutation of the catalog's flattened aliases, and one longer than the catalog per emulator record |
| Window.CorrectedSize | src/index.js:97-105 | the result minus the requested size is the window size minus the client area, in each dimension |
| Window.CorrectedSizeOfCurrentArea | src/index.js:97-105 | requesting the current client area gives the current window size |
| Window.CorrectedSizeGivesRequestedArea | src/index.js:97-105 | removing the same chrome from the result gives the requested size |
| Scenarios.NormalisedEntries | src/index.js:48-95 | a non-Appium emulator is dropped; a `macOS` desktop record gets no device |
| Scenarios.DesktopChrome | test/mocha/generate-capabilities-test.js:21-125 | `Chrome@88.0:macOS 11.00` gives `chrome`, `88.0`, `macos 11.00`, plus the screen resolution and the override key when present |
| Scenarios.EmulatorTablet | test/mocha/browser-names-test.js:40-81 | `Android Emulator Tablet@4.4` gives the emulator device with device type `tablet` |
| Scenarios.UnknownVersion | test/mocha/browser-names-test.js:40-81 | a version the catalog lacks gives the no-match error |
| Scenarios.ConnectOptions | test/mocha/generate-sauce-connect-options-test.js:21-40 | the defaults alone, and the defaults beside an override key |

## Left out

- `fetchPlatforms` and the HTTPS helpers (network, Basic-Auth, status handling). The parsed
  platform list, or its absence, is an input.
- `SAUCE_API_HOST`: only used to build the URL.
- The credential guard in `fetchPlatforms` and `openBrowser`: an environment check before any
  modelled logic.
- `readConfigFromFile`: file I/O. Its result is an input map, `{}` on failure.
- Override files whose JSON is not an object (`Object.assign` would spread an array's indices):
  not modelled.
- `_getConnector` and `_disposeConnector`: the promise chain with retry over the foreign
  Sauce Connect library.
- `openBrowser`, `closeBrowser`, `resizeWindow` (except `getCorrectedSize`), `takeScreenshot`
  and `reportJobResult`: delegation to the connector and webdriver objects.
- `openedBrowsers`, `aliasesCache`, `tunnelConnectRetryCount` and `connectorPromise` are not
  fields of `Provider`, because only the left-out methods use them.
- The `desired-capabilities` parser: its grammar and defaults are not visible. Its records are
  an input. `Resolution.ListedAliasFindsAMatch` assumes the parser returns an alias's own name
  and version, with `any` for a missing platform.
- `toLowerCase`: modelled for ASCII letters only.
- `sort`: modelled as lexicographic order on characters. JavaScript compares UTF-16 code units,
  which gives the same order for characters of the Basic Multilingual Plane.
- Key order of JavaScript objects: capability sets are maps, so insertion order is not
  modelled.
- Missing fields of a raw record (`undefined`): every field is a string here. With a missing
  `os` the source would throw in `startsWith` or `toLowerCase`.
- Window sizes are unbounded integers. Floating-point and non-numeric sizes are not modelled.
- The per-backend `wiki-assets` requests and the Selendroid aliases that test/fixtures/test.js
  expects: `src/index.js` makes no such requests, so there is nothing of them to model.
- Resolution.AliasMatchesItsRecord: the round trip is proved under sufficient conditions: a
  non-empty name, a version without capitals, and (unless the record is a mobile emulator) a
  name the emulator rewrite keeps whole. Outside them the source loses the match in general:
  an empty name never matches, a capitalised version differs from the lowercased query
  version, and a name such as `Android Emulator X` on a record that is not an emulator is
  rewritten to `android emulator`. A few inputs outside them still match by coincidence
  (a version that lowers to `any` acts as the wildcard); those are not covered.
- Resolution.PlainAliasMatches: the same sufficient conditions, for a record that is its own
  alias record.
- Resolution.ListedAliasFindsAMatch: the same sufficient conditions as AliasMatchesItsRecord.
