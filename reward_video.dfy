/** The rewarded-video ad unit: its event table and the object that stores
    its configuration and issues its bridge commands. */
module RewardVideoUnit {
  import opened Js
  import Utils
  import UnitConfig

  const EventKeys: seq<string> := ["LOAD", "LOAD_FAIL", "OPEN", "CLOSE", "EXIT_APP", "START", "REWARD"]

  /** `rewardVideo.events`, built once when the module loads. */
  const Events: map<string, string> := Utils.BuildEvents("rewardvideo", EventKeys)

  /** The rewarded-video event table holds exactly the seven events, the
      five shared ones plus START and REWARD, each under the
      `admob.rewardvideo.events.` namespace. */
  lemma EventsTable()
    ensures Events.Keys == {"LOAD", "LOAD_FAIL", "OPEN", "CLOSE", "EXIT_APP", "START", "REWARD"}
    ensures forall k | k in Events :: Events[k] == "admob.rewardvideo.events." + k
  {
    Utils.EventsKeysAndPrefix("rewardvideo", EventKeys, "admob.rewardvideo.events.", {"LOAD", "LOAD_FAIL", "OPEN", "CLOSE", "EXIT_APP", "START", "REWARD"});
  }

  class RewardVideo {
    /** The stored configuration (`_config`). */
    var config: Options

    /** The model's starting store is the empty map. The source leaves
        `_config` undefined until the first `config` call, which `config`
        hides because `{...undefined}` is `{}`. */
    constructor ()
      ensures config == map[]
    {
      config := map[];
    }

    /** The unit's `constructor` member: merges a copy of the options over
        the stored configuration and adds no default keys. */
    method Init(opts: Options)
      modifies this
      ensures config == Merge(old(config), opts)
      ensures config.Keys == old(config).Keys + opts.Keys
    {
      var _ := Config(Merge(map[], opts));
    }

    /** Shallow last-wins merge into the stored configuration, returning
        the stored result. */
    method Config(opts: Options) returns (r: Options)
      modifies this
      ensures config == Merge(old(config), opts)
      ensures forall k | k in opts :: config[k] == opts[k]
      ensures forall k | k in old(config) && k !in opts :: config[k] == old(config)[k]
      ensures config.Keys == old(config).Keys + opts.Keys
      ensures r == config
    {
      config := Merge(config, opts);
      r := config;
    }

    /** `prepare` as the source writes it: the payload is built and its
        `id` deleted, then the call of the unqualified name
        `translateOptions`, which nothing binds, throws before any command
        reaches the bridge. */
    method PrepareAsWritten() returns (o: Outcome)
      ensures o == Threw(ReferenceError("translateOptions"))
      ensures !o.Dispatched?
    {
      var options := Merge(map["rewardVideoId" := Get(config, "id")], config);
      options := options - {"id"};
      o := Threw(ReferenceError("translateOptions"));
    }

    /** `prepare` with the translator the other units use: builds the
        payload on a copy of the configuration, deletes its `id`, and
        issues `createRewardVideo` with the translated payload. The stored
        configuration is not changed. */
    method Prepare() returns (c: Command)
      ensures c == Command("createRewardVideo", [Obj(Utils.TranslateOptions(UnitConfig.Payload(config, "rewardVideoId")))])
      ensures "id" !in c.args[0].fields
      ensures c.args[0].fields["rewardVideoId"] ==
        if "rewardVideoId" in config then config["rewardVideoId"] else Get(config, "id")
    {
      var options := Merge(map["rewardVideoId" := Get(config, "id")], config);
      options := options - {"id"};
      UnitConfig.TranslatedPayload(config, "rewardVideoId");
      c := Command("createRewardVideo", [Obj(Utils.TranslateOptions(options))]);
    }

    /** Shows the loaded rewarded video. */
    function Show(): (c: Command)
      ensures c.name == "showRewardVideo" && c.args == [Bool(true)]
    {
      Command("showRewardVideo", [Bool(true)])
    }

    /** Asks the native side whether a rewarded video is loaded. */
    function IsReady(): (c: Command)
      ensures c.name == "isRewardVideoReady" && c.args == []
    {
      Command("isRewardVideoReady", [])
    }
  }
}
