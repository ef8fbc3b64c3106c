/** The interstitial ad unit: its event table and the object that stores
    its configuration and issues its bridge commands. */
module InterstitialUnit {
  import opened Js
  import Utils
  import UnitConfig

  const EventKeys: seq<string> := ["LOAD", "LOAD_FAIL", "OPEN", "CLOSE", "EXIT_APP"]

  /** `interstitial.events`, built once when the module loads. */
  const Events: map<string, string> := Utils.BuildEvents("interstitial", EventKeys)

  /** The interstitial event table holds exactly the five interstitial
      events, each under the `admob.interstitial.events.` namespace. */
  lemma EventsTable()
    ensures Events.Keys == {"LOAD", "LOAD_FAIL", "OPEN", "CLOSE", "EXIT_APP"}
    ensures forall k | k in Events :: Events[k] == "admob.interstitial.events." + k
  {
    Utils.EventsKeysAndPrefix("interstitial", EventKeys, "admob.interstitial.events.", {"LOAD", "LOAD_FAIL", "OPEN", "CLOSE", "EXIT_APP"});
  }

  class Interstitial {
    /** The stored configuration (`_config`). */
    var config: Options

    /** The model's starting store is the empty map. The source leaves
        `_config` undefined until the first `config` call, which `config`
        hides because `{...undefined}` is `{}`. */
    constructor ()
      ensures config == map[]
    {
      config := map[];
    }

    /** The unit's `constructor` member: merges a copy of the options over
        the stored configuration and adds no default keys. */
    method Init(opts: Options)
      modifies this
      ensures config == Merge(old(config), opts)
      ensures config.Keys == old(config).Keys + opts.Keys
    {
      var _ := Config(Merge(map[], opts));
    }

    /** Shallow last-wins merge into the stored configuration, returning
        the stored result. */
    method Config(opts: Options) returns (r: Options)
      modifies this
      ensures config == Merge(old(config), opts)
      ensures forall k | k in opts :: config[k] == opts[k]
      ensures forall k | k in old(config) && k !in opts :: config[k] == old(config)[k]
      ensures config.Keys == old(config).Keys + opts.Keys
      ensures r == config
    {
      config := Merge(config, opts);
      r := config;
    }

    /** Builds the payload on a copy of the configuration, deletes its
        `id`, and issues `prepareInterstitial` with the translated payload.
        The stored configuration is not changed. */
    method Prepare() returns (c: Command)
      ensures c == Command("prepareInterstitial", [Obj(Utils.TranslateOptions(UnitConfig.Payload(config, "interstitialAdId")))])
      ensures "id" !in c.args[0].fields
      ensures c.args[0].fields["interstitialAdId"] ==
        if "interstitialAdId" in config then config["interstitialAdId"] else Get(config, "id")
    {
      var options := Merge(map["interstitialAdId" := Get(config, "id")], config);
      options := options - {"id"};
      UnitConfig.TranslatedPayload(config, "interstitialAdId");
      c := Command("prepareInterstitial", [Obj(Utils.TranslateOptions(options))]);
    }

    /** Shows the loaded interstitial. */
    function Show(): (c: Command)
      ensures c.name == "showInterstitialAd" && c.args == [Bool(true)]
    {
      Command("showInterstitialAd", [Bool(true)])
    }

    /** Asks the native side whether an interstitial is loaded. */
    function IsReady(): (c: Command)
      ensures c.name == "isInterstitialReady" && c.args == []
    {
      Command("isInterstitialReady", [])
    }
  }
}
