/** The option translator and the event-name table builder shared by all
    three ad units. */
module Utils {
  import opened Js

  /** Tri-state re-encoding: null, true and false become "", "yes" and
      "no"; every other value is returned as it is. */
  function Boolean2String(x: JsVal): (r: JsVal)
    ensures x == Null ==> r == Str("")
    ensures x == Bool(true) ==> r == Str("yes")
    ensures x == Bool(false) ==> r == Str("no")
    ensures !x.Null? && !x.Bool? ==> r == x
    ensures !r.Null? && !r.Bool?
  {
    match x
    case Null => Str("")
    case Bool(b) => if b then Str("yes") else Str("no")
    case _ => x
  }

  /** Encoding an already encoded value changes nothing. */
  lemma Boolean2StringIdempotent(x: JsVal)
    ensures Boolean2String(Boolean2String(x)) == Boolean2String(x)
  {
  }

  /** A truthy value stays truthy: true becomes "yes", and strings,
      numbers and objects are kept. */
  lemma Boolean2StringKeepsTruthy(x: JsVal)
    requires Truthy(x)
    ensures Truthy(Boolean2String(x))
  {
  }

  /** The three tri-state inputs get three different encodings. */
  lemma Boolean2StringTriStateDistinct()
    ensures Boolean2String(Bool(true)) != Boolean2String(Bool(false))
    ensures Boolean2String(Bool(true)) != Boolean2String(Null)
    ensures Boolean2String(Bool(false)) != Boolean2String(Null)
  {
    assert Boolean2String(Bool(true)).s[0] == 'y';
    assert Boolean2String(Bool(false)).s[0] == 'n';
  }

  /** The re-encoded subset: both flags are written only when `forChild`
      is truthy. The second guard tests `forChild`, not `forFamily`. */
  function Encoded(options: Options): Options {
    var forChild := Get(options, "forChild");
    if Truthy(forChild) then
      map["forChild" := Boolean2String(forChild),
          "forFamily" := Boolean2String(Get(options, "forFamily"))]
    else map[]
  }

  /** The bridge-ready form of an option object: `{...options, ...opts,
      adSize: options.size}`. */
  function TranslateOptions(options: Options): (r: Options)
    ensures r.Keys == options.Keys + {"adSize"} +
      (if Truthy(Get(options, "forChild")) then {"forChild", "forFamily"} else {})
    ensures r["adSize"] == Get(options, "size")
    ensures Truthy(Get(options, "forChild")) ==>
      r["forChild"] == Boolean2String(Get(options, "forChild")) &&
      r["forFamily"] == Boolean2String(Get(options, "forFamily"))
    ensures !Truthy(Get(options, "forChild")) ==>
      forall k | k in options && k != "adSize" :: r[k] == options[k]
    ensures forall k | k in options && k != "forChild" && k != "forFamily" && k != "adSize" ::
      r[k] == options[k]
  {
    Merge(Merge(options, Encoded(options)), map["adSize" := Get(options, "size")])
  }

  /** A truthy `forChild` is re-encoded: true becomes "yes", and a
      non-empty string is kept as it is. */
  lemma ForChildTruthyEncoded(options: Options)
    requires Truthy(Get(options, "forChild"))
    ensures Get(options, "forChild") == Bool(true) ==> TranslateOptions(options)["forChild"] == Str("yes")
    ensures Get(options, "forChild").Str? ==> TranslateOptions(options)["forChild"] == options["forChild"]
  {
  }

  /** A falsy `forChild` passes through untouched: false is not turned into
      "no", and an absent flag stays absent. */
  lemma ForChildFalsyUntouched(options: Options)
    requires !Truthy(Get(options, "forChild"))
    ensures "forChild" in options ==> TranslateOptions(options)["forChild"] == options["forChild"]
    ensures "forChild" !in options ==> "forChild" !in TranslateOptions(options)
  {
  }

  /** The `forFamily` flag is re-encoded only under a truthy `forChild`:
      with `forChild: false` a `forFamily: true` reaches the bridge as the
      boolean true, and with `forChild: true` an absent `forFamily` is
      written as undefined. */
  lemma ForFamilyFollowsForChild()
    ensures TranslateOptions(map["forChild" := Bool(false), "forFamily" := Bool(true)])["forFamily"] == Bool(true)
    ensures TranslateOptions(map["forChild" := Bool(true), "forFamily" := Bool(true)])["forFamily"] == Str("yes")
    ensures TranslateOptions(map["forChild" := Bool(true)])["forFamily"] == Undefined
  {
    var o := map["forChild" := Bool(false), "forFamily" := Bool(true)];
    assert Get(o, "forChild") == Bool(false);
  }

  /** Translating a translated object changes nothing: the flags are
      already encoded, and `adSize` is recomputed from the same `size`. */
  lemma TranslateOptionsIdempotent(options: Options)
    ensures TranslateOptions(TranslateOptions(options)) == TranslateOptions(options)
  {
    var t := TranslateOptions(options);
    var tt := TranslateOptions(t);
    var forChild := Get(options, "forChild");
    assert Get(t, "size") == Get(options, "size");
    if Truthy(forChild) {
      Boolean2StringKeepsTruthy(forChild);
      assert Get(t, "forChild") == Boolean2String(forChild);
      Boolean2StringIdempotent(forChild);
      Boolean2StringIdempotent(Get(options, "forFamily"));
    } else {
      assert Get(t, "forChild") == forChild;
    }
    assert tt.Keys == t.Keys;
    forall k | k in t ensures tt[k] == t[k] {
    }
  }

  const WarningTail := " will not accept string in future, pass boolean instead"
  const ForChildWarning := "`forChild`" + WarningTail
  const ForFamilyWarning := "`forFamily`" + WarningTail

  /** The deprecation warnings `translateOptions` prints, in order: one for
      a string `forChild` and one for a string `forFamily`, both only under
      a truthy `forChild`. */
  function TranslationWarnings(options: Options): (w: seq<string>)
    ensures ForChildWarning in w <==> Truthy(Get(options, "forChild")) && Get(options, "forChild").Str?
    ensures ForFamilyWarning in w <==> Truthy(Get(options, "forChild")) && Get(options, "forFamily").Str?
    ensures |w| == (if Truthy(Get(options, "forChild")) && Get(options, "forChild").Str? then 1 else 0) +
      (if Truthy(Get(options, "forChild")) && Get(options, "forFamily").Str? then 1 else 0)
    ensures |w| == 2 ==> w[0] == ForChildWarning && w[1] == ForFamilyWarning
  {
    assert ForChildWarning[4] == 'C' && ForFamilyWarning[4] == 'F';
    var forChild := Get(options, "forChild");
    (if Truthy(forChild) && forChild.Str? then [ForChildWarning] else []) +
    (if Truthy(forChild) && Get(options, "forFamily").Str? then [ForFamilyWarning] else [])
  }

  /** The namespaced identifier of one event. */
  function EventName(adType: string, eventKey: string): string {
    "admob." + adType + ".events." + eventKey
  }

  /** The `reduce` over the event keys: each key maps to its namespaced
      name, written into the accumulator in list order. */
  function BuildEvents(adType: string, eventKeys: seq<string>): (r: map<string, string>)
    ensures r.Keys == set k | k in eventKeys
    ensures forall k | k in r :: r[k] == EventName(adType, k)
  {
    if eventKeys == [] then map[]
    else
      var init, last := eventKeys[..|eventKeys| - 1], eventKeys[|eventKeys| - 1];
      assert eventKeys == init + [last];
      BuildEvents(adType, init)[last := EventName(adType, last)]
  }

  /** The table built from a list of keys holds each listed key once, under
      the prefix `admob.<adType>.events.`. The prefix and the key set are
      parameters so that a caller with literal event keys states them once,
      instead of the verifier unfolding the fold over each literal. */
  lemma EventsKeysAndPrefix(adType: string, eventKeys: seq<string>, prefix: string, keys: set<string>)
    requires prefix == "admob." + adType + ".events."
    requires keys == set k | k in eventKeys
    ensures BuildEvents(adType, eventKeys).Keys == keys
    ensures forall k | k in BuildEvents(adType, eventKeys) :: BuildEvents(adType, eventKeys)[k] == prefix + k
  {
    var table := BuildEvents(adType, eventKeys);
    forall k | k in table ensures table[k] == prefix + k {
      assert "admob." + adType + ".events." + k == prefix + k;
    }
  }
}
