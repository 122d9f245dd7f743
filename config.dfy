/**
 * `Config`: the user preferences held in a dictionary that each setter updates and then
 * writes back to `config.json`. The file is a value: what the constructor reads, and the
 * dictionary last written successfully. Whether a write succeeds is a parameter, and so is
 * each generated `uuid4` string.
 */
module Configuration {
  import opened Wrappers
  import opened Json

  const DefaultModel := "llama3.2:3b"
  const DefaultTemplate := "standard_meeting"

  /** The metadata of one supported model. */
  datatype ModelInfo = ModelInfo(name: string, size: string, params: string, description: string, speed: string, quality: string)

  const SupportedModels: map<string, ModelInfo> := map[
    "llama3.2:3b" := ModelInfo("Llama 3.2 3B", "2GB", "3B", "Fastest option for quick meetings (default)", "very fast", "good"),
    "gemma3:4b" := ModelInfo("Gemma 3 4B", "2.5GB", "4B", "Lightweight and efficient", "fast", "good"),
    "qwen3:8b" := ModelInfo("Qwen 3 8B", "4.7GB", "8B", "Excellent at structured output and action items", "fast", "excellent"),
    "deepseek-r1:8b" := ModelInfo("DeepSeek R1 8B", "4.7GB", "8B", "Strong reasoning and analysis capabilities", "medium", "excellent")
  ]

  /** What the constructor finds at the config path. */
  datatype ConfigFile = Missing | Corrupt | Parsed(entries: map<string, Json>)

  /** `_get_default_config`, with `freshId` as the generated anonymous id. */
  function DefaultConfig(freshId: string): (m: map<string, Json>)
    ensures m.Keys == {"model", "template", "notifications_enabled", "telemetry_enabled", "anonymous_id", "version"}
    ensures m["model"] == JStr(DefaultModel) && m["template"] == JStr(DefaultTemplate)
    ensures m["notifications_enabled"] == JBool(true) && m["telemetry_enabled"] == JBool(true)
    ensures m["anonymous_id"] == JStr(freshId) && m["version"] == JStr("1.0")
  {
    map[ "model" := JStr(DefaultModel), "template" := JStr(DefaultTemplate),
         "notifications_enabled" := JBool(true), "telemetry_enabled" := JBool(true),
         "anonymous_id" := JStr(freshId), "version" := JStr("1.0") ]
  }

  /** `d.get(key, default)` on the configuration dictionary. */
  function Lookup(m: map<string, Json>, key: string, default: Json): Json {
    if key in m then m[key] else default
  }

  /** `get_model_info`: the metadata of a supported model, `None` for any other name. */
  function GetModelInfo(name: string): (r: Option<ModelInfo>)
    ensures r.None? <==> name !in SupportedModels
    ensures r.Some? ==> r.value == SupportedModels[name]
  {
    if name in SupportedModels then Some(SupportedModels[name]) else None
  }

  /** `list_supported_models`: a copy of the table, four models. */
  function ListSupportedModels(): (r: map<string, ModelInfo>)
    ensures r.Keys == {"llama3.2:3b", "gemma3:4b", "qwen3:8b", "deepseek-r1:8b"}
    ensures forall name :: name in r ==> GetModelInfo(name) == Some(r[name])
  {
    SupportedModels
  }

  /** The default model is one of the supported models, and it is the only 3B one. */
  lemma DefaultModelSupported()
    ensures GetModelInfo(DefaultModel).Some? && GetModelInfo(DefaultModel).value.params == "3B"
    ensures forall name :: name in SupportedModels && SupportedModels[name].params == "3B" ==> name == DefaultModel
  {
    assert SupportedModels.Keys == {"llama3.2:3b", "gemma3:4b", "qwen3:8b", "deepseek-r1:8b"};
  }

  class Config {
    var config: map<string, Json>
    /** The dictionary most recently written to `config.json` by this object, if any. */
    var saved: Option<map<string, Json>>

    /** `Config()` with `_load`: a missing or unreadable file gives the defaults; nothing is written. */
    constructor (file: ConfigFile, freshId: string)
      ensures file.Parsed? ==> config == file.entries
      ensures !file.Parsed? ==> config == DefaultConfig(freshId)
      ensures saved.None?
    {
      saved := None;
      match file
      case Parsed(entries) => config := entries;
      case _ => config := DefaultConfig(freshId);
    }

    /** `_save`: the dictionary is written when the write succeeds; the result says whether it did. */
    method Save(writeOk: bool) returns (ok: bool)
      modifies this
      ensures ok == writeOk && config == old(config)
      ensures saved == if writeOk then Some(config) else old(saved)
    {
      if writeOk {
        saved := Some(config);
      }
      ok := writeOk;
    }

    /** `get(key, default)`. */
    function Get(key: string, default: Json): (v: Json)
      reads this
      ensures key in config ==> v == config[key]
      ensures key !in config ==> v == default
    {
      Lookup(config, key, default)
    }

    /** `set(key, value)`: stores the value under the key, leaves every other key alone, then saves. */
    method Set(key: string, value: Json, writeOk: bool) returns (ok: bool)
      modifies this
      ensures config == old(config)[key := value]
      ensures Get(key, JNull) == value
      ensures forall k :: k != key ==> Lookup(config, k, JNull) == Lookup(old(config), k, JNull)
      ensures ok == writeOk && saved == if writeOk then Some(config) else old(saved)
    {
      config := config[key := value];
      ok := Save(writeOk);
    }

    /** `get_model`: the stored model, or the default model when none is stored. */
    function GetModel(): (v: Json)
      reads this
      ensures "model" !in config ==> v == JStr(DefaultModel)
      ensures "model" in config ==> v == config["model"]
    {
      Lookup(config, "model", JStr(DefaultModel))
    }

    /** `set_model`: any name is stored, supported or not. */
    method SetModel(name: string, writeOk: bool) returns (ok: bool)
      modifies this
      ensures config == old(config)["model" := JStr(name)] && GetModel() == JStr(name)
      ensures ok == writeOk && saved == if writeOk then Some(config) else old(saved)
    {
      ok := Set("model", JStr(name), writeOk);
    }

    /** `get_template`. */
    function GetTemplate(): (v: Json)
      reads this
      ensures "template" !in config ==> v == JStr(DefaultTemplate)
      ensures "template" in config ==> v == config["template"]
    {
      Lookup(config, "template", JStr(DefaultTemplate))
    }

    /** `set_template`. */
    method SetTemplate(id: string, writeOk: bool) returns (ok: bool)
      modifies this
      ensures config == old(config)["template" := JStr(id)] && GetTemplate() == JStr(id)
      ensures ok == writeOk && saved == if writeOk then Some(config) else old(saved)
    {
      ok := Set("template", JStr(id), writeOk);
    }

    /** `get_notifications_enabled`: on unless stored otherwise. */
    function GetNotificationsEnabled(): (v: Json)
      reads this
      ensures "notifications_enabled" !in config ==> v == JBool(true)
      ensures "notifications_enabled" in config ==> v == config["notifications_enabled"]
    {
      Lookup(config, "notifications_enabled", JBool(true))
    }

    /** `set_notifications_enabled`. */
    method SetNotificationsEnabled(enabled: bool, writeOk: bool) returns (ok: bool)
      modifies this
      ensures config == old(config)["notifications_enabled" := JBool(enabled)]
      ensures GetNotificationsEnabled() == JBool(enabled)
      ensures ok == writeOk && saved == if writeOk then Some(config) else old(saved)
    {
      ok := Set("notifications_enabled", JBool(enabled), writeOk);
    }

    /** `get_telemetry_enabled`: on unless stored otherwise. */
    function GetTelemetryEnabled(): (v: Json)
      reads this
      ensures "telemetry_enabled" !in config ==> v == JBool(true)
      ensures "telemetry_enabled" in config ==> v == config["telemetry_enabled"]
    {
      Lookup(config, "telemetry_enabled", JBool(true))
    }

    /** `set_telemetry_enabled`. */
    method SetTelemetryEnabled(enabled: bool, writeOk: bool) returns (ok: bool)
      modifies this
      ensures config == old(config)["telemetry_enabled" := JBool(enabled)]
      ensures GetTelemetryEnabled() == JBool(enabled)
      ensures ok == writeOk && saved == if writeOk then Some(config) else old(saved)
    {
      ok := Set("telemetry_enabled", JBool(enabled), writeOk);
    }

    /**
     * `get_anonymous_id`: a missing or falsy id is replaced by `freshId`, which is stored and
     * saved (the save result is ignored); a truthy id is returned unchanged and nothing is written.
     */
    method GetAnonymousId(freshId: string, writeOk: bool) returns (id: Json)
      modifies this
      ensures Truthy(Lookup(old(config), "anonymous_id", JNull)) ==>
        id == old(config)["anonymous_id"] && config == old(config) && saved == old(saved)
      ensures !Truthy(Lookup(old(config), "anonymous_id", JNull)) ==>
        id == JStr(freshId) && config == old(config)["anonymous_id" := id] &&
        saved == if writeOk then Some(config) else old(saved)
      ensures "anonymous_id" in config && config["anonymous_id"] == id
      ensures freshId != "" ==> Truthy(id)
    {
      id := Get("anonymous_id", JNull);
      if !Truthy(id) {
        id := JStr(freshId);
        config := config["anonymous_id" := id];
        var _ := Save(writeOk);
      }
    }
  }

  /** The process-wide `_config_instance`, created on first use. */
  class ConfigHolder {
    var instance: Config?

    constructor ()
      ensures instance == null
    {
      instance := null;
    }

    /** `get_config`: the existing instance, or a new one read from `file` on the first call. */
    method GetConfig(file: ConfigFile, freshId: string) returns (c: Config)
      modifies this
      ensures old(instance) != null ==> c == old(instance)
      ensures old(instance) == null ==> fresh(c) && (file.Parsed? ==> c.config == file.entries)
      ensures old(instance) == null ==> !file.Parsed? ==> c.config == DefaultConfig(freshId)
      ensures old(instance) == null ==> c.saved.None?
      ensures instance == c
    {
      if instance == null {
        instance := new Config(file, freshId);
      }
      c := instance;
    }
  }

  /** Asking twice for the anonymous id gives the same id, and the second call writes nothing. */
  method AnonymousIdStable(c: Config, freshId: string, otherId: string, writeOk: bool) returns (first: Json, second: Json)
    requires freshId != ""
    modifies c
    ensures first == second
    ensures Truthy(Lookup(old(c.config), "anonymous_id", JNull)) ==> c.config == old(c.config) && c.saved == old(c.saved)
    ensures !Truthy(Lookup(old(c.config), "anonymous_id", JNull)) ==>
      c.config == old(c.config)["anonymous_id" := JStr(freshId)] &&
      c.saved == (if writeOk then Some(c.config) else old(c.saved))
  {
    first := c.GetAnonymousId(freshId, writeOk);
    second := c.GetAnonymousId(otherId, writeOk);
  }
}
