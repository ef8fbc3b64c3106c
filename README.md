# vn-native-admob configuration layer, in Dafny

This project models the JavaScript layer of the vn-native-admob Cordova
plugin for iOS. That layer sits between an app and the native AdMob bridge,
and its one job is to translate configuration objects. It does not call
the bridge here: every bridge call becomes a returned `Command` value,
holding the native method's name and its arguments.

- `Js` (`js.dfy`) holds the JavaScript values the plugin handles. Option
  objects are `map<string, JsVal>`. `Truthy` follows JavaScript's rules.
  `Merge` is the object spread `{...a, ...b}`, where the later object wins.
- `Utils` (`utils.dfy`) holds the tri-state encoder `boolean2string`, the
  option translator `translateOptions`, the deprecation warnings the
  translator prints, and the event-table builder `buildEvents`.
- `UnitConfig` (`unit_config.dfy`) holds what the three ad units share:
  the last-wins configuration merge, and the payload that `prepare` builds.
  The payload puts the configured `id` under the unit's own key, unless
  that key is already set, and deletes `id`.
- `BannerUnit`, `InterstitialUnit` and `RewardVideoUnit` each hold one ad
  unit. Each has its event table and a class whose `config` field is the
  unit's `_config`.
  - `Init` is the JavaScript member named `constructor`.
  - `Config` stores the merge and returns the result.
  - `Prepare` builds its payload on a copy, so the stored configuration
    stays as it was.
  - `Show`, `Hide`, `Remove` and `IsReady` each return a fixed command.
- `AdMob` (`admob.dfy`) holds the aggregator object:
  - `App.SetOptions` is the legacy flat `setOptions`. It walks the keys of
    the options object. Its `switch` writes selected keys into the
    configurations of the three units. It then issues `setOptions` with the
    translated raw options.
  - The deprecated wrappers are `createBannerView`, `destroyBannerView`,
    `showAd`, `createInterstitialView`, `requestInterstitialAd`,
    `prepareInterstitial` and `showInterstitialAd`.

`www/ios/vnnative-admob.js` repeats `utils` and the three units word for
word at lines 32-396. Each is modelled once, from its own file.

Where the source's own documentation and its code disagree, the model
follows the code:

- The option documentation says `false` calls
  `tagForChildDirectedTreatment(false)` and `setIsDesignedForFamilies(false)`
  (www/ios/utils.js:14 and :22, and again at www/ios/vnnative-admob.js:491-500).
  But the translator re-encodes both flags only when `forChild` is truthy
  (www/ios/utils.js:84 and :92). So `forChild: false` reaches the bridge as
  the boolean false, and is never turned into "no". A `forFamily` is
  re-encoded or not according to `forChild`, never according to itself.
  `Utils.TranslateOptions` and `Utils.ForFamilyFollowsForChild` state this
  behaviour.
- `setOptions` documents `forChild` and `forFamily` among its flat options
  (www/ios/vnnative-admob.js:491-500). Its `switch` has no case for either,
  so they reach no unit's stored configuration; `AdMob.OtherKeysRouteNowhere`
  covers them. They still reach the bridge, through the translated
  `setOptions` command.

## Model

| member | source | states |
|---|---|---|
| Js.MergeLastWins | www/ios/vnnative-banner.js:85-88 | the spread `{...a, ...b}` has every key of either object; keys of `b` take `b`'s values, and every other key keeps `a`'s |
| Utils.Boolean2String | www/ios/utils.js:65-76 | null becomes "", true becomes "yes", false becomes "no", and every other value is returned unchanged; the result is never null and never a boolean |
| Utils.Boolean2StringIdempotent | www/ios/utils.js:65-76 | encoding an encoded value changes nothing |
| Utils.Boolean2StringKeepsTruthy | www/ios/utils.js:65-76 | a truthy value stays truthy after encoding |
| Utils.Boolean2StringTriStateDistinct | www/ios/utils.js:65-76 | true, false and null get three different encodings |
| Utils.TranslateOptions | www/ios/utils.js:81-107 | the output keys are the input keys, plus `adSize`, plus `forChild`/`forFamily` when `forChild` is truthy; `adSize` is the input's `size`, and may be undefined; under a truthy `forChild` both flags are encoded; under a falsy `forChild` every key except `adSize` passes through; all other keys always keep their values |
| Utils.ForChildTruthyEncoded | www/ios/utils.js:84-85 | a truthy `forChild` of true becomes "yes", and a truthy string `forChild` is kept as it is |
| Utils.ForChildFalsyUntouched | www/ios/utils.js:84-103 | a falsy `forChild` is passed through unchanged (false is not turned into "no"), and an absent one stays absent |
| Utils.ForFamilyFollowsForChild | www/ios/utils.js:92-93 | with `forChild: false`, a `forFamily: true` stays true; with both true it becomes "yes"; with `forChild: true` alone, `forFamily` is written as undefined |
| Utils.TranslateOptionsIdempotent | www/ios/utils.js:65-107 | translating a translated object changes nothing |
| Utils.TranslationWarnings | www/ios/utils.js:86-98 | the `forChild` warning appears exactly when `forChild` is a non-empty string; the `forFamily` warning appears exactly when `forChild` is truthy and `forFamily` is a string; each appears at most once, and when both appear the `forChild` warning comes first |
| Utils.BuildEvents | www/ios/utils.js:112-117 | the table's keys are exactly the listed event keys, and each value is `admob.<adType>.events.<key>` |
| Utils.EventsKeysAndPrefix | www/ios/utils.js:112-117 | for a given key set and prefix, the built table has exactly those keys, and each value is the prefix followed by the key |
| UnitConfig.MergeSuccessive | www/ios/vnnative-banner.js:84-90 | `config(a)` then `config(b)` stores the same as `config({...a, ...b})` |
| UnitConfig.MergeExample | www/ios/vnnative-banner.js:84-90 | `config({a: 1})` then `config({b: 2})` keeps both keys, and a later value for a key replaces the earlier one |
| UnitConfig.Payload | www/ios/vnnative-banner.js:98-102 | the payload has no `id`; its keys are the configuration's keys without `id`, plus the unit's id key; the id key holds the configured value of that key if set, otherwise the configured `id`; every other key keeps its value |
| UnitConfig.TranslatedPayload | www/ios/vnnative-banner.js:97-104 | after translation the payload still has no `id`, and its id key keeps the value above |
| BannerUnit.EventsTable | www/ios/vnnative-banner.js:14-20 | the banner events are exactly LOAD, LOAD_FAIL, OPEN, CLOSE and EXIT_APP, each named `admob.banner.events.<key>` |
| BannerUnit.Banner.constructor | www/ios/vnnative-banner.js:58-60 | the store starts as the empty map, the model's value for a `_config` that was never set |
| BannerUnit.Banner.Init | www/ios/vnnative-banner.js:71-76 | merges `{size: SMART_BANNER, ...opts}` over the stored configuration; the stored `size` is `opts.size` if `opts` has one, otherwise SMART_BANNER |
| BannerUnit.Banner.Config | www/ios/vnnative-banner.js:84-90 | the new configuration is the old one overridden by `opts`: keys of `opts` take the new values, all other keys keep the old ones; the result returned is the stored configuration |
| BannerUnit.Banner.Prepare | www/ios/vnnative-banner.js:97-104 | sends `createBannerView` with the translated payload; the payload has no `id`, and its `publisherId` is the configured `publisherId` if set, otherwise the configured `id`; the stored configuration is not changed |
| BannerUnit.Banner.Show | www/ios/vnnative-banner.js:111-113 | `showAd` with `[true]` |
| BannerUnit.Banner.Hide | www/ios/vnnative-banner.js:120-122 | the same native command as `Show`, with `[false]` |
| BannerUnit.Banner.Remove | www/ios/vnnative-banner.js:129-131 | `destroyBannerView` with no arguments |
| InterstitialUnit.EventsTable | www/ios/vnnative-interstitial.js:9-15 | the interstitial events are exactly LOAD, LOAD_FAIL, OPEN, CLOSE and EXIT_APP, each named `admob.interstitial.events.<key>` |
| InterstitialUnit.Interstitial.constructor | www/ios/vnnative-interstitial.js:22-23 | the store starts as the empty map, the model's value for a `_config` that was never set |
| InterstitialUnit.Interstitial.Init | www/ios/vnnative-interstitial.js:29-33 | adds no default keys: the stored configuration is `opts` merged over the old one |
| InterstitialUnit.Interstitial.Config | www/ios/vnnative-interstitial.js:41-47 | last-wins shallow merge of `opts` over the stored configuration, which is then returned |
| InterstitialUnit.Interstitial.Prepare | www/ios/vnnative-interstitial.js:52-59 | sends `prepareInterstitial` with the translated payload; the payload has no `id`, and its `interstitialAdId` is the configured value if set, otherwise the configured `id`; the stored configuration is not changed |
| InterstitialUnit.Interstitial.Show | www/ios/vnnative-interstitial.js:64-66 | `showInterstitialAd` with `[true]` |
| InterstitialUnit.Interstitial.IsReady | www/ios/vnnative-interstitial.js:71-73 | `isInterstitialReady` with no arguments |
| RewardVideoUnit.EventsTable | www/ios/vnnative-reward-video.js:9-17 | the rewarded-video events are exactly LOAD, LOAD_FAIL, OPEN, CLOSE, EXIT_APP, START and REWARD, each named `admob.rewardvideo.events.<key>` |
| RewardVideoUnit.RewardVideo.constructor | www/ios/vnnative-reward-video.js:23-24 | the store starts as the empty map, the model's value for a `_config` that was never set |
| RewardVideoUnit.RewardVideo.Init | www/ios/vnnative-reward-video.js:30-34 | adds no default keys: the stored configuration is `opts` merged over the old one |
| RewardVideoUnit.RewardVideo.Config | www/ios/vnnative-reward-video.js:42-48 | last-wins shallow merge of `opts` over the stored configuration, which is then returned |
| RewardVideoUnit.RewardVideo.PrepareAsWritten | www/ios/vnnative-reward-video.js:53-60 | as written, `prepare` throws a ReferenceError for `translateOptions` and sends no command |
| RewardVideoUnit.RewardVideo.Prepare | www/ios/vnnative-reward-video.js:53-60 | with `utils.translateOptions`: sends `createRewardVideo` with the translated payload; the payload has no `id`, and its `rewardVideoId` is the configured value if set, otherwise the configured `id`; the stored configuration is not changed |
| RewardVideoUnit.RewardVideo.Show | www/ios/vnnative-reward-video.js:65-67 | `showRewardVideo` with `[true]` |
| RewardVideoUnit.RewardVideo.IsReady | www/ios/vnnative-reward-video.js:72-74 | `isRewardVideoReady` with no arguments |
| AdMob.RoutedEntries | www/ios/vnnative-admob.js:509-533 | a unit receives `id` exactly when its identifier option is given, with that option's value; it receives each option it copies exactly when that option is given, with its value; it receives no other key |
| AdMob.TargetMatchesTable | www/ios/vnnative-admob.js:510-532 | the `switch` assigns `id` in exactly the unit the option identifies, and assigns the option under its own name in exactly the units that copy it; every other case assigns nothing |
| AdMob.RoutedStep | www/ios/vnnative-admob.js:509-533 | one more option key changes what reaches a unit exactly as that key's `case` changes the unit's configuration |
| AdMob.RoutedStepId | www/ios/vnnative-admob.js:511-524 | a unit's identifier option replaces the routed `id` |
| AdMob.RoutedStepCopied | www/ios/vnnative-admob.js:514-530 | a copied option replaces its own routed entry |
| AdMob.MergeRoutedStep | www/ios/vnnative-admob.js:509-533 | the same step, seen on the stored configuration that the routed entries overwrite |
| AdMob.LoopStep | www/ios/vnnative-admob.js:509-533 | visiting one more key of the `forEach` extends the configuration built from the keys visited so far |
| AdMob.PublisherIdRoutesToBannerOnly | www/ios/vnnative-admob.js:511-513 | `publisherId` becomes the banner's `id` and leaves the other two units unchanged |
| AdMob.PlacementFlagsRouteToBannerOnly | www/ios/vnnative-admob.js:514-518 | `bannerAtTop`, `overlap` and `offsetTopBar` are copied under their own names into the banner only |
| AdMob.InterstitialAdIdRoutesToInterstitialOnly | www/ios/vnnative-admob.js:519-521 | `interstitialAdId` becomes the interstitial's `id` and leaves the other two units unchanged |
| AdMob.RewardVideoIdRoutesToRewardVideoOnly | www/ios/vnnative-admob.js:522-524 | `rewardVideoId` becomes the rewarded video's `id` and leaves the other two units unchanged |
| AdMob.SharedFlagsRouteToAllUnits | www/ios/vnnative-admob.js:525-530 | `isTesting` and `autoShow` are copied into every unit |
| AdMob.OtherKeysRouteNowhere | www/ios/vnnative-admob.js:531 | a key without a `case`, such as `forChild`, `forFamily`, `size` or `id`, changes no unit |
| AdMob.App.constructor | www/ios/vnnative-admob.js:423-469 | the aggregator holds three distinct units, each with an empty configuration |
| AdMob.App.RouteKey | www/ios/vnnative-admob.js:510-532 | one pass of the `switch` writes the key's value into exactly the units its case names |
| AdMob.App.RouteAll | www/ios/vnnative-admob.js:509-533 | after the `forEach`, each unit's configuration is the old one overwritten by the unit's routed entries, whatever order the keys were visited in |
| AdMob.App.SetOptions | www/ios/vnnative-admob.js:507-540 | for an object: every unit's configuration is the old one overwritten by its routed entries, and `setOptions` is sent with the translated raw options; for null: a TypeError, and nothing is changed; for any other value: nothing is changed and no command is sent, and a function failure callback receives "options should be specified." |
| AdMob.CreateBannerView | www/ios/vnnative-admob.js:554-563 | `createBannerView` with the translated options, `{}` when none are given |
| AdMob.DestroyBannerView | www/ios/vnnative-admob.js:568-571 | `destroyBannerView` with no arguments, whatever options are passed |
| AdMob.ShowAd | www/ios/vnnative-admob.js:576-579 | `showAd` with the flag, true when it is omitted |
| AdMob.CreateInterstitialView | www/ios/vnnative-admob.js:584-595 | `createInterstitialView` with the translated options; with no options (there is no default) the translator throws a TypeError |
| AdMob.RequestInterstitialAd | www/ios/vnnative-admob.js:600-611 | `requestInterstitialAd` with the translated options, `{}` when none are given |
| AdMob.PrepareInterstitial | www/ios/vnnative-admob.js:616-625 | `prepareInterstitial` with the translated options, `{}` when none are given |
| AdMob.ShowInterstitialAd | www/ios/vnnative-admob.js:638-645 | `showInterstitialAd` with the flag, true when it is omitted |
| AdMob.LegacyWrappersMatchUnits | www/ios/vnnative-admob.js:568-645 | `showAd()` is `banner.show()`, `showAd(false)` is `banner.hide()`, `destroyBannerView()` is `banner.remove()`, and `showInterstitialAd()` is `interstitial.show()`; `prepareInterstitial` given the interstitial payload sends no `id` |
| AdMob.LegacyDefaults | www/ios/vnnative-admob.js:554-645 | with no options, `createBannerView`, `requestInterstitialAd` and `prepareInterstitial` send `{adSize: undefined}`; with no flag, `showAd` and `showInterstitialAd` send true |

## Left out

- The `exec` bridge, the Promises that `utils.exec` builds, `wrapCallbacks`, and the success and failure callbacks that `exec` receives (www/ios/utils.js:35-63). These are asynchronous plumbing over a foreign bridge. Each bridge call is a returned `Command`. Of the callbacks, only whether `setOptions`' failure callback is a function is modelled, as a boolean.
- The native AdMob SDK: loading, showing, readiness answers and event emission all happen outside the plugin's JavaScript.
- `console.warn` output. The translator's two warnings are returned as a list by `Utils.TranslationWarnings`. The legacy wrappers' deprecation messages are not modelled.
- `app.AD_SIZE = Banner.sizes` (www/ios/vnnative-admob.js:548) reads an unbound name. This is a loading defect, not logic, and it is not modelled.
- `showInterstitial` (www/ios/vnnative-admob.js:630-633) calls `interstitial.show()`, which is not bound in that file. It is not modelled.
- The `module.export` misspelling and the `require('utils')` paths are module-loading defects and are not modelled.
- Numbers are integers. `location` pairs and functions are the pass-through value `Opaque`.
- Arrays: `typeof []` is `'object'`, so an array passed to `App.SetOptions` would enter the object branch. The model gives arrays no value of their own, so an array takes the non-object path.
- A unit whose `_config` was never set. In the source `_config` starts undefined. `config` hides this, because `{...undefined}` is `{}`. The model's stores start as an empty map, so the following differ from the source on a unit that was never configured:
  - `App.SetOptions` would throw a TypeError when it assigns into that unit.
  - `BannerUnit.Banner.Prepare`, `InterstitialUnit.Interstitial.Prepare` and `RewardVideoUnit.RewardVideo.Prepare` would throw a TypeError at `this._config.id` (www/ios/vnnative-banner.js:99, www/ios/vnnative-interstitial.js:54, www/ios/vnnative-reward-video.js:55). The model instead sends the command with an undefined identifier.
  - `RewardVideoUnit.RewardVideo.PrepareAsWritten` would throw that TypeError before it reaches the ReferenceError.
- Aliasing: `config` returns the stored `_config` object, which `setOptions` later changes in place. The model copies maps by value, so a caller's earlier copy does not see those changes.
- The legacy wrappers accept an absent or undefined options argument through `Option`. Other non-object arguments are not modelled.
- `BannerUnit.Sizes` is kept only as a table of constant strings, as the source has it. Nothing is proved about it beyond the SMART_BANNER default.

## Findings

| source | as written | input that shows it | evidently intended | confidence | as-written member | corrected member |
|---|---|---|---|---|---|---|
| www/ios/vnnative-reward-video.js:59 | `prepare` calls the unqualified name `translateOptions`, which neither this file nor the aggregator (www/ios/vnnative-admob.js:380) binds, so the call throws a ReferenceError and no `createRewardVideo` command is sent | any call of `rewardVideo.prepare()` | `utils.translateOptions(options)`, as the banner and interstitial `prepare` use | high, not executed | RewardVideoUnit.RewardVideo.PrepareAsWritten | RewardVideoUnit.RewardVideo.Prepare |
