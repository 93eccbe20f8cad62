/**
 * The configuration merge and validation of the server's configuration
 * loader: a recursive deep merge of a custom configuration over the defaults,
 * and the structural checks that reject a merged configuration.
 */
module Config {
  import opened Optional
  import opened JsonValue

  /** The built-in defaults the loader starts from. */
  const DefaultConfig: map<string, Json> := map[
    "server" := JObj(map["port" := JNum(3000.0), "host" := JStr("localhost")]),
    "database" := JObj(map["type" := JStr("sqlite"), "path" := JStr("./data/oncall.db")]),
    "logging" := JObj(map["level" := JStr("info"), "file" := JStr("./logs/oncall.log")])
  ]

  /**
   * Whether key `k` of the custom configuration is merged recursively: the
   * custom value is a non-null, non-array object and the default value is a
   * non-null object, which includes an array.
   */
  predicate MergesRecursively(defaults: map<string, Json>, custom: map<string, Json>, k: string)
    requires k in custom
  {
    custom[k].JObj? && k in defaults && IsObjectLike(defaults[k])
  }

  /**
   * Deep merge: every default key is kept, every custom key overwrites it,
   * except that an object over an object (or over an array) is merged
   * recursively.  A default-side array that is merged becomes an object
   * keyed by its indices.
   */
  function MergeConfigs(defaults: map<string, Json>, custom: map<string, Json>): (r: map<string, Json>)
    decreases JObj(custom)
    ensures r.Keys == defaults.Keys + custom.Keys
    ensures forall k :: k in defaults && k !in custom ==> r[k] == defaults[k]
    ensures forall k :: k in custom && !MergesRecursively(defaults, custom, k) ==> r[k] == custom[k]
    ensures forall k :: k in custom && MergesRecursively(defaults, custom, k) ==>
              r[k].JObj? && r[k].fields.Keys == Spread(defaults[k]).Keys + custom[k].fields.Keys
    ensures forall k :: k in custom && MergesRecursively(defaults, custom, k) ==>
              r[k] == JObj(MergeConfigs(Spread(defaults[k]), custom[k].fields))
  {
    map k | k in defaults.Keys + custom.Keys ::
      if k in custom then
        if MergesRecursively(defaults, custom, k)
        then JObj(MergeConfigs(Spread(defaults[k]), custom[k].fields))
        else custom[k]
      else defaults[k]
  }

  /** Merging nothing over the defaults gives the defaults. */
  lemma MergeWithEmpty(defaults: map<string, Json>)
    ensures MergeConfigs(defaults, map[]) == defaults
  {
  }

  /** Merging a configuration over itself gives it back. */
  lemma {:induction false} MergeWithSelf(config: map<string, Json>)
    decreases JObj(config)
    ensures MergeConfigs(config, config) == config
  {
    var r := MergeConfigs(config, config);
    forall k | k in config
      ensures r[k] == config[k]
    {
      if MergesRecursively(config, config, k) {
        MergeWithSelf(config[k].fields);
      }
    }
  }

  /** Merging the same custom configuration twice changes nothing more. */
  lemma {:induction false} MergeIdempotent(defaults: map<string, Json>, custom: map<string, Json>)
    decreases JObj(custom)
    ensures MergeConfigs(MergeConfigs(defaults, custom), custom) == MergeConfigs(defaults, custom)
  {
    var once := MergeConfigs(defaults, custom);
    var twice := MergeConfigs(once, custom);
    forall k | k in once
      ensures twice[k] == once[k]
    {
      if k in custom && custom[k].JObj? {
        if MergesRecursively(defaults, custom, k) {
          MergeIdempotent(Spread(defaults[k]), custom[k].fields);
        } else {
          MergeWithSelf(custom[k].fields);
        }
      }
    }
  }

  /** The value at a path of keys, `None` when the path leaves the objects. */
  function At(j: Json, path: seq<string>): Option<Json>
  {
    if path == [] then Some(j)
    else if j.JObj? && path[0] in j.fields then At(j.fields[path[0]], path[1..])
    else None
  }

  /** Every non-object value of the custom configuration reaches the result at its own path. */
  lemma {:induction false} MergeKeepsCustomLeaf(defaults: map<string, Json>, custom: map<string, Json>, path: seq<string>, v: Json)
    requires At(JObj(custom), path) == Some(v) && !v.JObj?
    decreases path
    ensures At(JObj(MergeConfigs(defaults, custom)), path) == Some(v)
  {
    var k := path[0];
    if MergesRecursively(defaults, custom, k) {
      MergeKeepsCustomLeaf(Spread(defaults[k]), custom[k].fields, path[1..], v);
    }
  }

  /**
   * The custom configuration leaves the path alone: its first key is absent
   * from the custom side, or the custom side holds an object there that in
   * turn leaves the rest of the path alone.
   */
  predicate NotOverridden(custom: map<string, Json>, path: seq<string>)
    decreases |path|
  {
    |path| > 0 &&
    (path[0] !in custom || (|path| > 1 && custom[path[0]].JObj? && NotOverridden(custom[path[0]].fields, path[1..])))
  }

  /** Every default value whose path the custom configuration leaves alone survives the merge, at any depth. */
  lemma {:induction false} MergeKeepsDefaultLeaf(defaults: map<string, Json>, custom: map<string, Json>, path: seq<string>, v: Json)
    requires At(JObj(defaults), path) == Some(v) && NotOverridden(custom, path)
    decreases path
    ensures At(JObj(MergeConfigs(defaults, custom)), path) == Some(v)
  {
    var k := path[0];
    var merged := MergeConfigs(defaults, custom);
    if k in custom {
      var d := defaults[k];
      assert At(d, path[1..]) == Some(v);
      assert d.JObj?;
      assert MergesRecursively(defaults, custom, k);
      MergeKeepsDefaultLeaf(d.fields, custom[k].fields, path[1..], v);
      assert merged[k] == JObj(MergeConfigs(d.fields, custom[k].fields));
    } else {
      assert merged[k] == defaults[k];
    }
  }

  /** A custom file that only sets the server port keeps the default host and the other sections. */
  lemma CustomPortKeepsDefaultHost()
    ensures var merged := MergeConfigs(DefaultConfig, map["server" := JObj(map["port" := JNum(8080.0)])]);
            && At(JObj(merged), ["server", "host"]) == Some(JStr("localhost"))
            && At(JObj(merged), ["server", "port"]) == Some(JNum(8080.0))
            && merged["database"] == DefaultConfig["database"]
  {
    var custom := map["server" := JObj(map["port" := JNum(8080.0)])];
    assert At(JObj(DefaultConfig), ["server", "host"]) == Some(JStr("localhost")) by {
      assert ["server", "host"][1..] == ["host"] && ["host"][1..] == [];
    }
    assert NotOverridden(custom, ["server", "host"]) by {
      assert ["server", "host"][1..] == ["host"];
    }
    MergeKeepsDefaultLeaf(DefaultConfig, custom, ["server", "host"], JStr("localhost"));
    assert At(JObj(custom), ["server", "port"]) == Some(JNum(8080.0)) by {
      assert ["server", "port"][1..] == ["port"] && ["port"][1..] == [];
    }
    MergeKeepsCustomLeaf(DefaultConfig, custom, ["server", "port"], JNum(8080.0));
  }

  /**
   * An object merged over an array turns the array into an object keyed by
   * its decimal indices, holding the array's elements beside the custom keys.
   */
  lemma ArrayDefaultBecomesObject(defaults: map<string, Json>, custom: map<string, Json>, k: string, i: nat)
    requires k in defaults && defaults[k].JArr? && i < |defaults[k].items|
    requires k in custom && custom[k].JObj? && Decimal(i) !in custom[k].fields
    ensures MergeConfigs(defaults, custom)[k].JObj?
    ensures At(JObj(MergeConfigs(defaults, custom)), [k, Decimal(i)]) == Some(defaults[k].items[i])
  {
    var merged := MergeConfigs(defaults, custom);
    var spread := Spread(defaults[k]);
    var key := Decimal(i);
    assert MergesRecursively(defaults, custom, k);
    var inner := MergeConfigs(spread, custom[k].fields);
    assert merged[k] == JObj(inner);
    assert key in spread && spread[key] == defaults[k].items[i];
    assert inner[key] == defaults[k].items[i];
    assert [k, key][1..] == [key] && [key][1..] == [];
    assert At(JObj(inner), [key]) == At(inner[key], []) == Some(inner[key]);
    assert At(JObj(merged), [k, key]) == At(JObj(inner), [key]);
  }

  /** The error each failed check raises. */
  datatype ConfigError =
    | InvalidServer    // 'Invalid server configuration'
    | NoAiModels       // 'AI is enabled but no models are configured'
    | InvalidAiModel   // 'Invalid AI model configuration: ...'
    | InvalidImpact    // 'Invalid impact evaluation configuration'
    | InvalidFuture    // 'Invalid future proofing configuration'

  datatype Validation = Valid | Invalid(error: ConfigError)

  /** `config.key` on the configuration object. */
  function Section(config: map<string, Json>, key: string): Option<Json>
  {
    if key in config then Some(config[key]) else None
  }

  /** `Object.keys(x).length` for a non-null `x`. */
  function KeyCount(j: Json): nat
  {
    match j
    case JObj(fields) => |fields|
    case JArr(items) => |items|
    case JStr(s) => |s|
    case _ => 0
  }

  /** One configured AI model is usable: it has a truthy `name` and `endpoint`. */
  predicate ModelUsable(model: Json)
  {
    !model.JNull? && Present(Prop(model, "name")) && Present(Prop(model, "endpoint"))
  }

  /** Every entry of `Object.values(models)` is a usable model (a string's entries are its characters). */
  predicate EveryModelUsable(models: Json)
  {
    match models
    case JObj(fields) => forall k | k in fields :: ModelUsable(fields[k])
    case JArr(items) => forall i | 0 <= i < |items| :: ModelUsable(items[i])
    case JStr(s) => s == ""
    case _ => true
  }

  /** `server` is present and `server.port` is a number. */
  predicate ServerOk(config: map<string, Json>)
  {
    Present(Section(config, "server")) && Prop(config["server"], "port").Some? && Prop(config["server"], "port").value.JNum?
  }

  /** AI is enabled: `ai` is truthy and so is `ai.enabled`. */
  predicate AiEnabled(config: map<string, Json>)
  {
    Present(Section(config, "ai")) && Present(Prop(config["ai"], "enabled"))
  }

  /** `ai.models` is truthy and has at least one key. */
  predicate HasModels(config: map<string, Json>)
    requires AiEnabled(config)
  {
    Present(Prop(config["ai"], "models")) && KeyCount(config["ai"].fields["models"]) > 0
  }

  /** `impact` is present and `impact.severityLevels` is an array. */
  predicate ImpactOk(config: map<string, Json>)
  {
    Present(Section(config, "impact")) && Prop(config["impact"], "severityLevels").Some? && Prop(config["impact"], "severityLevels").value.JArr?
  }

  /** Learning is off, or `future.dataRetentionDays` is a number. */
  predicate FutureOk(config: map<string, Json>)
  {
    !(Present(Section(config, "future")) && Present(Prop(config["future"], "learningEnabled")))
    || (Prop(config["future"], "dataRetentionDays").Some? && Prop(config["future"], "dataRetentionDays").value.JNum?)
  }

  /**
   * The checks in the order the loader makes them; the first one that fails
   * decides the error.
   */
  function ValidateConfig(config: map<string, Json>): (r: Validation)
    ensures r == Valid <==>
              ServerOk(config) && (AiEnabled(config) ==> HasModels(config) && EveryModelUsable(config["ai"].fields["models"]))
              && ImpactOk(config) && FutureOk(config)
    ensures r == Invalid(InvalidServer) <==> !ServerOk(config)
    ensures r == Invalid(NoAiModels) <==> ServerOk(config) && AiEnabled(config) && !HasModels(config)
    ensures r == Invalid(InvalidAiModel) <==>
              ServerOk(config) && AiEnabled(config) && HasModels(config) && !EveryModelUsable(config["ai"].fields["models"])
    ensures r == Invalid(InvalidImpact) <==>
              ServerOk(config) && (AiEnabled(config) ==> HasModels(config) && EveryModelUsable(config["ai"].fields["models"]))
              && !ImpactOk(config)
    ensures r == Invalid(InvalidFuture) <==>
              ServerOk(config) && (AiEnabled(config) ==> HasModels(config) && EveryModelUsable(config["ai"].fields["models"]))
              && ImpactOk(config) && !FutureOk(config)
  {
    if !ServerOk(config) then Invalid(InvalidServer)
    else if AiEnabled(config) && !HasModels(config) then Invalid(NoAiModels)
    else if AiEnabled(config) && !EveryModelUsable(config["ai"].fields["models"]) then Invalid(InvalidAiModel)
    else if !ImpactOk(config) then Invalid(InvalidImpact)
    else if !FutureOk(config) then Invalid(InvalidFuture)
    else Valid
  }

  /**
   * The defaults alone fail validation: they carry no `impact` section.  The
   * loader's missing-file fallback returns them without validating.
   */
  lemma DefaultsLackImpact()
    ensures ValidateConfig(DefaultConfig) == Invalid(InvalidImpact)
  {
  }

  /**
   * The server check passes after the loader's merge whenever the custom
   * file leaves `server` out, or gives an object whose `port`, if any, is a
   * number: the default port 3000 survives the merge.
   */
  lemma MergedServerValid(custom: map<string, Json>)
    requires "server" in custom ==>
               custom["server"].JObj? && ("port" in custom["server"].fields ==> custom["server"].fields["port"].JNum?)
    ensures ValidateConfig(MergeConfigs(DefaultConfig, custom)) != Invalid(InvalidServer)
  {
    var merged := MergeConfigs(DefaultConfig, custom);
    if "server" in custom {
      assert MergesRecursively(DefaultConfig, custom, "server");
      var inner := MergeConfigs(DefaultConfig["server"].fields, custom["server"].fields);
      assert merged["server"] == JObj(inner);
      assert "port" in inner;
    }
    assert ServerOk(merged);
  }
}
