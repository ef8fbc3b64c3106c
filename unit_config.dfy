/** What the three ad units share: the shallow last-wins merge of their
    stored configuration and the request payload `prepare` builds from it. */
module UnitConfig {
  import opened Js
  import Utils

  /** Two successive `config` calls store what one call with the merged
      options would: `config(a); config(b)` is `config({...a, ...b})`. */
  lemma MergeSuccessive(c: Options, a: Options, b: Options)
    ensures Merge(Merge(c, a), b) == Merge(c, Merge(a, b))
  {
  }

  /** `config({a: 1})` then `config({b: 2})` holds both keys, and a later
      value for a key overwrites the earlier one. */
  lemma MergeExample()
    ensures Merge(Merge(map[], map["a" := Num(1)]), map["b" := Num(2)]) == map["a" := Num(1), "b" := Num(2)]
    ensures Merge(Merge(map[], map["a" := Num(1)]), map["a" := Num(2)]) == map["a" := Num(2)]
  {
  }

  /** The payload `{[idKey]: config.id, ...config}` with `id` deleted:
      the unit's identifier under its unit-specific key, unless the
      configuration already holds that key, and never the generic `id`. */
  function Payload(config: Options, idKey: string): (r: Options)
    requires idKey != "id"
    ensures "id" !in r
    ensures r.Keys == config.Keys - {"id"} + {idKey}
    ensures r[idKey] == if idKey in config then config[idKey] else Get(config, "id")
    ensures forall k | k in config && k != "id" :: r[k] == config[k]
  {
    Merge(map[idKey := Get(config, "id")], config) - {"id"}
  }

  /** After translation the payload still has no `id`, and its identifier
      entry survives unless the key is one the translator rewrites. */
  lemma TranslatedPayload(config: Options, idKey: string)
    requires idKey != "id" && idKey != "forChild" && idKey != "forFamily" && idKey != "adSize"
    ensures "id" !in Utils.TranslateOptions(Payload(config, idKey))
    ensures Utils.TranslateOptions(Payload(config, idKey))[idKey] ==
      if idKey in config then config[idKey] else Get(config, "id")
  {
  }
}
