/** The aggregator: the `admob` object holding the three ad units, the
    legacy flat `setOptions`, and the deprecated command wrappers. */
module AdMob {
  import opened Js
  import Utils
  import UnitConfig
  import BannerUnit
  import InterstitialUnit
  import RewardVideoUnit

  /** The ad unit a legacy option is routed to. */
  datatype Unit = BannerAd | InterstitialAd | RewardVideoAd

  /** The `case` labels of the `switch` in `setOptions`. */
  datatype Case = PublisherId | BannerFlag | InterstitialAdId | RewardVideoId | SharedFlag | NoCase

  /** The `case` an option key falls into. */
  function CaseOf(k: string): Case {
    if k == "publisherId" then PublisherId
    else if k == "bannerAtTop" || k == "overlap" || k == "offsetTopBar" then BannerFlag
    else if k == "interstitialAdId" then InterstitialAdId
    else if k == "rewardVideoId" then RewardVideoId
    else if k == "isTesting" || k == "autoShow" then SharedFlag
    else NoCase
  }

  // The case of each identifier option, evaluated once here so that the
  // routing lemmas below need not compare the literal against every label.
  lemma CaseLabels()
    ensures CaseOf("publisherId") == PublisherId
    ensures CaseOf("interstitialAdId") == InterstitialAdId
    ensures CaseOf("rewardVideoId") == RewardVideoId
  {
  }

  /** The key of unit `u`'s configuration that the case of option `k`
      assigns, if any. */
  function Target(u: Unit, k: string): Option<string> {
    match (CaseOf(k), u)
    case (PublisherId, BannerAd) => Some("id")
    case (BannerFlag, BannerAd) => Some(k)
    case (InterstitialAdId, InterstitialAd) => Some("id")
    case (RewardVideoId, RewardVideoAd) => Some("id")
    case (SharedFlag, _) => Some(k)
    case _ => None
  }

  /** What the case of option `k` with value `v` does to unit `u`'s
      configuration `c`. */
  function Written(u: Unit, c: Options, k: string, v: JsVal): Options {
    match Target(u, k)
    case Some(t) => c[t := v]
    case None => c
  }

  /** Every key the `switch` of `setOptions` has a case for. */
  const RoutedKeys: set<string> :=
    {"publisherId", "bannerAtTop", "overlap", "offsetTopBar", "interstitialAdId",
     "rewardVideoId", "isTesting", "autoShow"}

  /** The flat option whose value `setOptions` stores as the unit's `id`. */
  function IdSource(u: Unit): string {
    match u
    case BannerAd => "publisherId"
    case InterstitialAd => "interstitialAdId"
    case RewardVideoAd => "rewardVideoId"
  }

  /** The flat options `setOptions` copies into the unit under their own
      names. */
  function CopiedKeys(u: Unit): set<string> {
    match u
    case BannerAd => {"bannerAtTop", "overlap", "offsetTopBar", "isTesting", "autoShow"}
    case _ => {"isTesting", "autoShow"}
  }

  /** The entries of `o` whose keys lie in `ks`. */
  function Pick(o: Options, ks: set<string>): (r: Options)
    ensures r.Keys == o.Keys * ks
    ensures forall k | k in r :: r[k] == o[k]
  {
    map k | k in o && k in ks :: o[k]
  }

  /** The entries `setOptions(o)` writes into unit `u`'s configuration,
      as a table: the unit's identifier option as `id`, and its copied
      options under their own names. */
  function Routed(u: Unit, o: Options): Options {
    (if IdSource(u) in o then map["id" := o[IdSource(u)]] else map[]) + Pick(o, CopiedKeys(u))
  }

  /** What reaches unit `u`: `id` exactly when the unit's identifier
      option is given, with its value; each copied option exactly when it
      is given, with its value; and no other key. */
  lemma RoutedEntries(u: Unit, o: Options)
    ensures "id" in Routed(u, o) <==> IdSource(u) in o
    ensures IdSource(u) in o ==> Routed(u, o)["id"] == o[IdSource(u)]
    ensures forall k | k in CopiedKeys(u) :: k in Routed(u, o) <==> k in o
    ensures forall k | k in CopiedKeys(u) && k in o :: Routed(u, o)[k] == o[k]
    ensures Routed(u, o).Keys <= {"id"} + CopiedKeys(u)
  {
  }

  /** The `switch` and the table agree: a case assigns `id` of exactly the
      unit the option identifies, the option's own name in exactly the
      units that copy it, and nothing else. */
  lemma TargetMatchesTable(u: Unit, k: string)
    ensures Target(u, k) == if k == IdSource(u) then Some("id")
      else if k in CopiedKeys(u) then Some(k)
      else None
    ensures IdSource(u) !in CopiedKeys(u) && "id" !in CopiedKeys(u)
  {
    match u
    case BannerAd =>
    case InterstitialAd =>
    case RewardVideoAd =>
  }

  /** One more option key `k` in the object changes what reaches unit `u`
      exactly as the case of `k` changes `u`'s configuration. */
  lemma RoutedStep(u: Unit, o: Options, k: string, v: JsVal)
    ensures Routed(u, o[k := v]) == Written(u, Routed(u, o), k, v)
  {
    TargetMatchesTable(u, k);
    if k == IdSource(u) {
      RoutedStepId(u, o, v);
    } else if k in CopiedKeys(u) {
      RoutedStepCopied(u, o, k, v);
    } else {
      assert Pick(o[k := v], CopiedKeys(u)) == Pick(o, CopiedKeys(u));
    }
  }

  // The identifier option replaces the routed `id`.
  lemma RoutedStepId(u: Unit, o: Options, v: JsVal)
    requires IdSource(u) !in CopiedKeys(u) && "id" !in CopiedKeys(u)
    ensures Routed(u, o[IdSource(u) := v]) == Routed(u, o)["id" := v]
  {
    var copied := CopiedKeys(u);
    assert Pick(o[IdSource(u) := v], copied) == Pick(o, copied);
    var head := if IdSource(u) in o then map["id" := o[IdSource(u)]] else map[];
    assert (head + Pick(o, copied))["id" := v] == map["id" := v] + Pick(o, copied);
  }

  // A copied option replaces its own routed entry.
  lemma RoutedStepCopied(u: Unit, o: Options, k: string, v: JsVal)
    requires k in CopiedKeys(u) && k != IdSource(u) && "id" !in CopiedKeys(u)
    ensures Routed(u, o[k := v]) == Routed(u, o)[k := v]
  {
    var copied := CopiedKeys(u);
    assert Pick(o[k := v], copied) == Pick(o, copied)[k := v];
    var head := if IdSource(u) in o then map["id" := o[IdSource(u)]] else map[];
    assert head + Pick(o, copied)[k := v] == (head + Pick(o, copied))[k := v];
  }

  /** The same step seen on a stored configuration `c` that the routed
      entries are merged over. */
  lemma MergeRoutedStep(u: Unit, c: Options, o: Options, k: string, v: JsVal)
    ensures Merge(c, Routed(u, o[k := v])) == Written(u, Merge(c, Routed(u, o)), k, v)
  {
    RoutedStep(u, o, k, v);
    if Target(u, k).Some? {
      MergeUpdate(c, Routed(u, o), Target(u, k).value, v);
    }
  }

  /** Visiting one more key `k` of `m` in `setOptions`: the configuration
      built from the keys visited so far, written by the case of `k`, is
      the one built from the visited keys and `k`. */
  lemma LoopStep(u: Unit, c: Options, m: Options, done: set<string>, k: string)
    requires k in m
    ensures Merge(c, Routed(u, Pick(m, done + {k}))) == Written(u, Merge(c, Routed(u, Pick(m, done))), k, m[k])
  {
    assert Pick(m, done + {k}) == Pick(m, done)[k := m[k]];
    MergeRoutedStep(u, c, Pick(m, done), k, m[k]);
  }

  // Before any key is visited nothing is routed.
  lemma LoopStart(u: Unit, c: Options, m: Options)
    ensures Merge(c, Routed(u, Pick(m, {}))) == c
  {
    assert Pick(m, {}) == map[];
    assert Routed(u, map[]) == map[];
  }

  // Updating the later operand of a merge is updating the merge.
  lemma MergeUpdate(c: Options, r: Options, key: string, v: JsVal)
    ensures Merge(c, r[key := v]) == Merge(c, r)[key := v]
  {
    assert c + r[key := v] == (c + r)[key := v];
  }

  /** `publisherId` becomes the banner's `id` and touches neither other
      unit. */
  lemma PublisherIdRoutesToBannerOnly(o: Options, v: JsVal)
    ensures Routed(BannerAd, o["publisherId" := v])["id"] == v
    ensures Routed(InterstitialAd, o["publisherId" := v]) == Routed(InterstitialAd, o)
    ensures Routed(RewardVideoAd, o["publisherId" := v]) == Routed(RewardVideoAd, o)
  {
    CaseLabels();
    RoutedStep(BannerAd, o, "publisherId", v);
    RoutedStep(InterstitialAd, o, "publisherId", v);
    RoutedStep(RewardVideoAd, o, "publisherId", v);
  }

  /** The banner placement flags are copied into the banner only. */
  lemma PlacementFlagsRouteToBannerOnly(o: Options, k: string, v: JsVal)
    requires k == "bannerAtTop" || k == "overlap" || k == "offsetTopBar"
    ensures Routed(BannerAd, o[k := v])[k] == v
    ensures Routed(InterstitialAd, o[k := v]) == Routed(InterstitialAd, o)
    ensures Routed(RewardVideoAd, o[k := v]) == Routed(RewardVideoAd, o)
  {
    assert CaseOf(k) == BannerFlag;
    RoutedStep(BannerAd, o, k, v);
    RoutedStep(InterstitialAd, o, k, v);
    RoutedStep(RewardVideoAd, o, k, v);
  }

  /** `interstitialAdId` becomes the interstitial's `id` and touches
      neither other unit. */
  lemma InterstitialAdIdRoutesToInterstitialOnly(o: Options, v: JsVal)
    ensures Routed(InterstitialAd, o["interstitialAdId" := v])["id"] == v
    ensures Routed(BannerAd, o["interstitialAdId" := v]) == Routed(BannerAd, o)
    ensures Routed(RewardVideoAd, o["interstitialAdId" := v]) == Routed(RewardVideoAd, o)
  {
    CaseLabels();
    RoutedStep(InterstitialAd, o, "interstitialAdId", v);
    RoutedStep(BannerAd, o, "interstitialAdId", v);
    RoutedStep(RewardVideoAd, o, "interstitialAdId", v);
  }

  /** `rewardVideoId` becomes the rewarded video's `id` and touches
      neither other unit. */
  lemma RewardVideoIdRoutesToRewardVideoOnly(o: Options, v: JsVal)
    ensures Routed(RewardVideoAd, o["rewardVideoId" := v])["id"] == v
    ensures Routed(BannerAd, o["rewardVideoId" := v]) == Routed(BannerAd, o)
    ensures Routed(InterstitialAd, o["rewardVideoId" := v]) == Routed(InterstitialAd, o)
  {
    CaseLabels();
    RoutedStep(RewardVideoAd, o, "rewardVideoId", v);
    RoutedStep(BannerAd, o, "rewardVideoId", v);
    RoutedStep(InterstitialAd, o, "rewardVideoId", v);
  }

  /** `isTesting` and `autoShow` are copied into all three units. */
  lemma SharedFlagsRouteToAllUnits(o: Options, k: string, v: JsVal, u: Unit)
    requires k == "isTesting" || k == "autoShow"
    ensures Routed(u, o[k := v])[k] == v
  {
    assert CaseOf(k) == SharedFlag;
    RoutedStep(u, o, k, v);
  }

  /** A key without a case in the `switch` (`forChild`, `forFamily`,
      `size`, `id`, ...) changes no unit's configuration. */
  lemma OtherKeysRouteNowhere(o: Options, k: string, v: JsVal, u: Unit)
    requires k !in RoutedKeys
    ensures Routed(u, o[k := v]) == Routed(u, o)
  {
    assert CaseOf(k) == NoCase;
    RoutedStep(u, o, k, v);
  }

  /** The message the failure callback receives when `setOptions` is not
      given an object. */
  const OptionsMissing := "options should be specified."

  /** The `admob` object: the three ad units it exposes. */
  class App {
    const banner: BannerUnit.Banner
    const interstitial: InterstitialUnit.Interstitial
    const rewardvideo: RewardVideoUnit.RewardVideo

    constructor ()
      ensures fresh(banner) && fresh(interstitial) && fresh(rewardvideo)
      ensures banner.config == map[] && interstitial.config == map[] && rewardvideo.config == map[]
    {
      banner := new BannerUnit.Banner();
      interstitial := new InterstitialUnit.Interstitial();
      rewardvideo := new RewardVideoUnit.RewardVideo();
    }

    /** One pass of the `switch` in `setOptions`: writes the value of
        option `k` into the units its case names. */
    method RouteKey(k: string, v: JsVal)
      modifies banner, interstitial, rewardvideo
      ensures banner.config == Written(BannerAd, old(banner.config), k, v)
      ensures interstitial.config == Written(InterstitialAd, old(interstitial.config), k, v)
      ensures rewardvideo.config == Written(RewardVideoAd, old(rewardvideo.config), k, v)
    {
      match CaseOf(k)
      case PublisherId =>
        banner.config := banner.config["id" := v];
      case BannerFlag =>
        banner.config := banner.config[k := v];
      case InterstitialAdId =>
        interstitial.config := interstitial.config["id" := v];
      case RewardVideoId =>
        rewardvideo.config := rewardvideo.config["id" := v];
      case SharedFlag =>
        banner.config := banner.config[k := v];
        interstitial.config := interstitial.config[k := v];
        rewardvideo.config := rewardvideo.config[k := v];
      case NoCase =>
    }

    /** The `forEach` over `Object.keys(m)`: routes every key of `m`
        into the units' stored configurations, in whatever order the keys
        are visited. */
    method RouteAll(m: Options)
      modifies banner, interstitial, rewardvideo
      ensures banner.config == Merge(old(banner.config), Routed(BannerAd, m))
      ensures interstitial.config == Merge(old(interstitial.config), Routed(InterstitialAd, m))
      ensures rewardvideo.config == Merge(old(rewardvideo.config), Routed(RewardVideoAd, m))
    {
      var todo := m.Keys;
      ghost var done: set<string> := {};
      LoopStart(BannerAd, banner.config, m);
      LoopStart(InterstitialAd, interstitial.config, m);
      LoopStart(RewardVideoAd, rewardvideo.config, m);
      while todo != {}
        invariant todo !! done && todo + done == m.Keys
        invariant banner.config == Merge(old(banner.config), Routed(BannerAd, Pick(m, done)))
        invariant interstitial.config == Merge(old(interstitial.config), Routed(InterstitialAd, Pick(m, done)))
        invariant rewardvideo.config == Merge(old(rewardvideo.config), Routed(RewardVideoAd, Pick(m, done)))
        decreases todo
      {
        var k :| k in todo;
        LoopStep(BannerAd, old(banner.config), m, done, k);
        LoopStep(InterstitialAd, old(interstitial.config), m, done, k);
        LoopStep(RewardVideoAd, old(rewardvideo.config), m, done, k);
        RouteKey(k, m[k]);
        todo := todo - {k};
        done := done + {k};
      }
      assert Pick(m, done) == m;
    }

    /** Legacy `setOptions`. With an object, every key is routed into the
        units' stored configurations (`Routed`), whatever order the keys
        are visited in, and `setOptions` is issued with the translated raw
        options. `null` makes `Object.keys` throw before anything is
        written. Any other value calls the failure callback, when it is a
        function, with a fixed message. */
    method SetOptions(options: JsVal, failureIsFunction: bool) returns (out: Outcome)
      modifies banner, interstitial, rewardvideo
      ensures options.Obj? ==>
        && banner.config == Merge(old(banner.config), Routed(BannerAd, options.fields))
        && interstitial.config == Merge(old(interstitial.config), Routed(InterstitialAd, options.fields))
        && rewardvideo.config == Merge(old(rewardvideo.config), Routed(RewardVideoAd, options.fields))
        && out == Dispatched(Command("setOptions", [Obj(Utils.TranslateOptions(options.fields))]))
      ensures !options.Obj? ==> unchanged(banner, interstitial, rewardvideo)
      ensures options.Null? ==> out == Threw(TypeError)
      ensures !options.Obj? && !options.Null? ==>
        out == if failureIsFunction then FailureCallback(OptionsMissing) else NoEffect
    {
      if options.Obj? {
        RouteAll(options.fields);
        out := Dispatched(Command("setOptions", [Obj(Utils.TranslateOptions(options.fields))]));
      } else if options.Null? {
        out := Threw(TypeError);
      } else if failureIsFunction {
        out := FailureCallback(OptionsMissing);
      } else {
        out := NoEffect;
      }
    }
  }

  /** The options a wrapper with the default `options = {}` works on:
      `None` stands for an omitted or undefined argument. */
  function OrEmpty(options: Option<Options>): (o: Options)
    ensures options.None? ==> o == map[]
    ensures options.Some? ==> o == options.value
  {
    if options.Some? then options.value else map[]
  }

  /** Legacy `createBannerView`: issues the command of that name with the
      translated options, `{}` when none are given. */
  function CreateBannerView(options: Option<Options>): (c: Command)
    ensures c.name == "createBannerView"
    ensures c.args == [Obj(Utils.TranslateOptions(OrEmpty(options)))]
  {
    Command("createBannerView", [Obj(Utils.TranslateOptions(OrEmpty(options)))])
  }

  /** Legacy `destroyBannerView`: ignores its options. */
  function DestroyBannerView(): (c: Command)
    ensures c.name == "destroyBannerView" && c.args == []
  {
    Command("destroyBannerView", [])
  }

  /** Legacy `showAd`: the flag defaults to true. */
  function ShowAd(show: JsVal): (c: Command)
    ensures c.name == "showAd"
    ensures c.args == [if show.Undefined? then Bool(true) else show]
  {
    Command("showAd", [if show.Undefined? then Bool(true) else show])
  }

  /** Legacy `createInterstitialView`: it has no default, so with no
      options the translator reads a property of `undefined` and throws. */
  function CreateInterstitialView(options: Option<Options>): (out: Outcome)
    ensures options.None? ==> out == Threw(TypeError)
    ensures options.Some? ==>
      out == Dispatched(Command("createInterstitialView", [Obj(Utils.TranslateOptions(options.value))]))
  {
    match options
    case None => Threw(TypeError)
    case Some(o) => Dispatched(Command("createInterstitialView", [Obj(Utils.TranslateOptions(o))]))
  }

  /** Legacy `requestInterstitialAd`, with the default `{}`. */
  function RequestInterstitialAd(options: Option<Options>): (c: Command)
    ensures c.name == "requestInterstitialAd"
    ensures c.args == [Obj(Utils.TranslateOptions(OrEmpty(options)))]
  {
    Command("requestInterstitialAd", [Obj(Utils.TranslateOptions(OrEmpty(options)))])
  }

  /** Legacy `prepareInterstitial`, with the default `{}`. */
  function PrepareInterstitial(options: Option<Options>): (c: Command)
    ensures c.name == "prepareInterstitial"
    ensures c.args == [Obj(Utils.TranslateOptions(OrEmpty(options)))]
  {
    Command("prepareInterstitial", [Obj(Utils.TranslateOptions(OrEmpty(options)))])
  }

  /** Legacy `showInterstitialAd`: the flag defaults to true. */
  function ShowInterstitialAd(show: JsVal): (c: Command)
    ensures c.name == "showInterstitialAd"
    ensures c.args == [if show.Undefined? then Bool(true) else show]
  {
    Command("showInterstitialAd", [if show.Undefined? then Bool(true) else show])
  }

  /** The legacy wrappers issue the same commands as the unit API: `showAd`
      with its default is `banner.show()`, `showAd(false)` is
      `banner.hide()`, `destroyBannerView` is `banner.remove()`,
      `showInterstitialAd` with its default is `interstitial.show()`, and
      `prepareInterstitial` given the interstitial payload is what
      `interstitial.prepare()` sends. */
  lemma LegacyWrappersMatchUnits(b: BannerUnit.Banner, i: InterstitialUnit.Interstitial, config: Options)
    ensures ShowAd(Undefined) == b.Show()
    ensures ShowAd(Bool(false)) == b.Hide()
    ensures DestroyBannerView() == b.Remove()
    ensures ShowInterstitialAd(Undefined) == i.Show()
    ensures "id" !in PrepareInterstitial(Some(UnitConfig.Payload(config, "interstitialAdId"))).args[0].fields
  {
    UnitConfig.TranslatedPayload(config, "interstitialAdId");
  }

  /** The defaults of the legacy wrappers: with no options the command
      carries `{adSize: undefined}`, the translation of `{}`, and with no
      flag `showAd`/`showInterstitialAd` send true. */
  lemma LegacyDefaults()
    ensures CreateBannerView(None) == Command("createBannerView", [Obj(map["adSize" := Undefined])])
    ensures RequestInterstitialAd(None) == Command("requestInterstitialAd", [Obj(map["adSize" := Undefined])])
    ensures PrepareInterstitial(None) == Command("prepareInterstitial", [Obj(map["adSize" := Undefined])])
    ensures ShowAd(Undefined) == ShowAd(Bool(true))
    ensures ShowInterstitialAd(Undefined) == ShowInterstitialAd(Bool(true))
  {
    assert Utils.TranslateOptions(map[]) == map["adSize" := Undefined];
  }
}
