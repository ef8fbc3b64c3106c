/** The banner ad unit: its event table, its size names, and the object
    that stores its configuration and issues its bridge commands. */
module BannerUnit {
  import opened Js
  import Utils
  import UnitConfig

  const EventKeys: seq<string> := ["LOAD", "LOAD_FAIL", "OPEN", "CLOSE", "EXIT_APP"]

  /** `banner.events`, built once when the module loads. */
  const Events: map<string, string> := Utils.BuildEvents("banner", EventKeys)

  /** `banner.sizes`: every size name maps to itself. */
  const Sizes: map<string, string> := map[
    "BANNER" := "BANNER",
    "IAB_BANNER" := "IAB_BANNER",
    "IAB_LEADERBOARD" := "IAB_LEADERBOARD",
    "IAB_MRECT" := "IAB_MRECT",
    "LARGE_BANNER" := "LARGE_BANNER",
    "SMART_BANNER" := "SMART_BANNER",
    "FLUID" := "FLUID",
    "FULL_BANNER" := "FULL_BANNER",
    "LEADERBOARD" := "LEADERBOARD",
    "MEDIUM_RECTANGLE" := "MEDIUM_RECTANGLE",
    "SEARCH" := "SEARCH",
    "WIDE_SKYSCRAPER" := "WIDE_SKYSCRAPER"]

  /** The banner event table holds exactly the five banner events, each
      under the `admob.banner.events.` namespace. */
  lemma EventsTable()
    ensures Events.Keys == {"LOAD", "LOAD_FAIL", "OPEN", "CLOSE", "EXIT_APP"}
    ensures forall k | k in Events :: Events[k] == "admob.banner.events." + k
  {
    Utils.EventsKeysAndPrefix("banner", EventKeys, "admob.banner.events.", {"LOAD", "LOAD_FAIL", "OPEN", "CLOSE", "EXIT_APP"});
  }

  class Banner {
    /** The stored configuration (`_config`). */
    var config: Options

    /** The model's starting store is the empty map. The source leaves
        `_config` undefined until the first `config` call, which `config`
        hides because `{...undefined}` is `{}`. */
    constructor ()
      ensures config == map[]
    {
      config := map[];
    }

    /** The unit's `constructor` member: merges the options over the
        stored configuration, with `size` defaulting to SMART_BANNER
        unless the options supply it. */
    method Init(opts: Options)
      modifies this
      ensures config == Merge(old(config), Merge(map["size" := Str(Sizes["SMART_BANNER"])], opts))
      ensures config["size"] == if "size" in opts then opts["size"] else Str("SMART_BANNER")
    {
      var _ := Config(Merge(map["size" := Str(Sizes["SMART_BANNER"])], opts));
    }

    /** Shallow last-wins merge into the stored configuration, returning
        the stored result. */
    method Config(opts: Options) returns (r: Options)
      modifies this
      ensures config == Merge(old(config), opts)
      ensures forall k | k in opts :: config[k] == opts[k]
      ensures forall k | k in old(config) && k !in opts :: config[k] == old(config)[k]
      ensures config.Keys == old(config).Keys + opts.Keys
      ensures r == config
    {
      config := Merge(config, opts);
      r := config;
    }

    /** Builds the payload on a copy of the configuration, deletes its
        `id`, and issues `createBannerView` with the translated payload.
        The stored configuration is not changed. */
    method Prepare() returns (c: Command)
      ensures c == Command("createBannerView", [Obj(Utils.TranslateOptions(UnitConfig.Payload(config, "publisherId")))])
      ensures "id" !in c.args[0].fields
      ensures c.args[0].fields["publisherId"] ==
        if "publisherId" in config then config["publisherId"] else Get(config, "id")
    {
      var options := Merge(map["publisherId" := Get(config, "id")], config);
      options := options - {"id"};
      UnitConfig.TranslatedPayload(config, "publisherId");
      c := Command("createBannerView", [Obj(Utils.TranslateOptions(options))]);
    }

    /** Shows the banner. */
    function Show(): (c: Command)
      ensures c.name == "showAd" && c.args == [Bool(true)]
    {
      Command("showAd", [Bool(true)])
    }

    /** Hides the banner: the same native command as `Show`, with the flag
        cleared. */
    function Hide(): (c: Command)
      ensures c.name == Show().name && c.args == [Bool(false)]
    {
      Command("showAd", [Bool(false)])
    }

    /** Destroys the native banner view. */
    function Remove(): (c: Command)
      ensures c.name == "destroyBannerView" && c.args == []
    {
      Command("destroyBannerView", [])
    }
  }
}
