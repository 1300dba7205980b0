/** `create_app`: the application's settings, built from defaults and the configuration file. */
module AppAssembler {
  import opened Wrappers
  import opened ConfigValues

  /** `_DEFAULT_CONFIG`: the settings every application starts from. */
  const DefaultConfig: map<string, Value> := map[
    "SERVER_NAME" := Text("localhost:5000"),
    "LOG_LEVEL" := Text("warning"),
    "LOG_FILENAME" := Null
  ]

  /** The keys that some layer sets. */
  function LayerKeys(layers: seq<map<string, Value>>): set<string>
  {
    if layers == [] then {} else LayerKeys(layers[..|layers| - 1]) + layers[|layers| - 1].Keys
  }

  /** Applying `layers` to `base` in order, each key of a later layer replacing the value before it. */
  function Overlay(base: map<string, Value>, layers: seq<map<string, Value>>): (r: map<string, Value>)
    ensures r.Keys == base.Keys + LayerKeys(layers)
    ensures |layers| > 0 ==> forall k :: k in layers[|layers| - 1] ==> r[k] == layers[|layers| - 1][k]
    ensures forall k :: k in base && k !in LayerKeys(layers) ==> r[k] == base[k]
  {
    if layers == [] then base
    else Overlay(base, layers[..|layers| - 1]) + layers[|layers| - 1]
  }

  /** A key takes its value from the last layer that sets it. */
  lemma {:induction false} OverlayLastSetterWins(base: map<string, Value>, layers: seq<map<string, Value>>, i: nat, k: string)
    requires i < |layers| && k in layers[i] && k !in LayerKeys(layers[i + 1..])
    ensures k in Overlay(base, layers) && Overlay(base, layers)[k] == layers[i][k]
  {
    var n := |layers|;
    if i < n - 1 {
      var prefix := layers[..n - 1];
      assert layers[i + 1..] == prefix[i + 1..] + [layers[n - 1]];
      assert (prefix[i + 1..] + [layers[n - 1]])[..|prefix[i + 1..]|] == prefix[i + 1..];
      assert k !in LayerKeys(prefix[i + 1..]) && k !in layers[n - 1];
      OverlayLastSetterWins(base, prefix, i, k);
    }
  }

  /** The mappings taken from the configuration: its `flexfielddb` section if there is a configuration, else none. */
  function LocalConfigs(config: Option<ConfigFile>): seq<map<string, Value>>
  {
    if config.Some? then [config.value.section] else []
  }

  /** The settings `create_app` leaves: the framework's own, then the defaults, then the configuration's. */
  function AppSettings(frameworkDefaults: map<string, Value>, config: Option<ConfigFile>): map<string, Value>
  {
    Overlay(frameworkDefaults, [DefaultConfig] + LocalConfigs(config))
  }

  /** The application's settings dictionary (`app.config`), updated in place. */
  class AppConfig {
    var entries: map<string, Value>

    constructor (initial: map<string, Value>)
      ensures entries == initial
    {
      entries := initial;
    }

    /** `dict.update`: every key of `other` is set to its value there, one key at a time. */
    method Update(other: map<string, Value>)
      modifies this
      ensures entries == old(entries) + other
    {
      var pending := other.Keys;
      while pending != {}
        invariant pending <= other.Keys
        invariant entries.Keys == old(entries).Keys + (other.Keys - pending)
        invariant forall k :: k in entries ==> entries[k] == if k in other && k !in pending then other[k] else old(entries)[k]
        decreases pending
      {
        var k :| k in pending;
        entries := entries[k := other[k]];
        pending := pending - {k};
      }
    }
  }

  /**
   * `create_app`, reduced to the settings of the application it builds:
   * defaults first, then the configuration's `flexfielddb` section.
   */
  method CreateApp(config: Option<ConfigFile>, frameworkDefaults: map<string, Value>) returns (app: AppConfig)
    ensures fresh(app)
    ensures app.entries == AppSettings(frameworkDefaults, config)
  {
    var localConfigs: seq<map<string, Value>> := [];
    if config.Some? {
      localConfigs := localConfigs + [config.value.section];
    }
    app := new AppConfig(frameworkDefaults);
    app.Update(DefaultConfig);
    ghost var layers := [DefaultConfig] + localConfigs;
    for i := 0 to |localConfigs|
      invariant app.entries == Overlay(frameworkDefaults, layers[..i + 1])
    {
      assert layers[..i + 2][..i + 1] == layers[..i + 1] && layers[i + 1] == localConfigs[i];
      app.Update(localConfigs[i]);
    }
    assert layers[..|localConfigs| + 1] == layers;
  }

  /** Every default key is set, whatever the configuration. */
  lemma DefaultKeysPresent(frameworkDefaults: map<string, Value>, config: Option<ConfigFile>)
    ensures DefaultConfig.Keys <= AppSettings(frameworkDefaults, config).Keys
  {
  }

  /** A key of the configuration's section takes the section's value. */
  lemma SectionWins(frameworkDefaults: map<string, Value>, config: ConfigFile, k: string)
    requires k in config.section
    ensures k in AppSettings(frameworkDefaults, Some(config))
    ensures AppSettings(frameworkDefaults, Some(config))[k] == config.section[k]
  {
  }

  /** A default key that the configuration does not set keeps its default value. */
  lemma DefaultKeptUnlessSet(frameworkDefaults: map<string, Value>, config: Option<ConfigFile>, k: string)
    requires k in DefaultConfig && (config.None? || k !in config.value.section)
    ensures k in AppSettings(frameworkDefaults, config)
    ensures AppSettings(frameworkDefaults, config)[k] == DefaultConfig[k]
  {
  }

  /** Without a configuration the settings are the framework's overlaid by the defaults; over no framework settings, the defaults exactly. */
  lemma NoConfigMeansDefaults(frameworkDefaults: map<string, Value>)
    ensures AppSettings(frameworkDefaults, None) == frameworkDefaults + DefaultConfig
    ensures AppSettings(map[], None) == DefaultConfig
  {
  }

  /** A section setting only the server name changes it and leaves the log level at its default. */
  lemma ServerNameOverride(frameworkDefaults: map<string, Value>)
    ensures var settings := AppSettings(frameworkDefaults, Some(ConfigFile(map["SERVER_NAME" := Text("example.com:8080")])));
            && settings["SERVER_NAME"] == Text("example.com:8080")
            && settings["LOG_LEVEL"] == Text("warning")
  {
  }
}
