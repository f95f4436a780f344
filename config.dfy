/**
 * Process-wide configuration (config.go): which parts of an error are
 * recorded and the minimum level that is logged.
 */
module Configuration {
  import opened Levels

  datatype Config = Config(
    logLevel: bool,        // record the Level
    logTime: bool,         // record the timestamp
    loggingLevel: Level,   // minimum Level to log
    logCaller: bool,       // record the caller details
    callerDepth: int,      // frames to step back before reading caller information
    callersToShow: int     // how many calling functions to show
  )

  /** A stored configuration always has a logging level. */
  predicate Normal(c: Config) {
    c.loggingLevel != 0
  }

  /** The defaults: level and time recorded, INFO and above logged, no caller, depth 2, 2 callers. */
  function DefaultConfig(): (r: Config)
    ensures Normal(r)
    ensures r.loggingLevel == INFO && String(r.loggingLevel) == "info"
  {
    Config(
      logLevel := true,
      logTime := true,
      loggingLevel := INFO,
      logCaller := false,
      callerDepth := 2,
      callersToShow := 2)
  }

  /** NewConfig is another name for the defaults. */
  function NewConfig(): (r: Config)
    ensures r == DefaultConfig()
  {
    DefaultConfig()
  }

  /**
   * What the setter stores: the argument with an unset logging level
   * replaced by INFO. The result is normal, logs INFO and above when the
   * argument had no level, agrees with the argument on every other field,
   * and is the argument itself whenever that was normal.
   */
  function Normalized(c: Config): (r: Config)
    ensures Normal(r)
    ensures c.loggingLevel == 0 ==> r.loggingLevel == INFO
    ensures r.(loggingLevel := c.loggingLevel) == c
    ensures Normal(c) <==> r == c
  {
    if c.loggingLevel == 0 then c.(loggingLevel := INFO) else c
  }

  /** Setting a configuration twice stores the same as setting it once. */
  lemma NormalizedIdempotent(c: Config)
    ensures Normalized(Normalized(c)) == Normalized(c)
  {
  }

  /** The defaults agree field by field with the documented values, and are stored unchanged. */
  lemma DefaultConfigValues()
    ensures NewConfig() == Config(true, true, INFO, false, 2, 2)
    ensures Normalized(DefaultConfig()) == DefaultConfig()
  {
  }

  /** The package-level `config` variable. */
  class ConfigStore {
    var config: Config

    /** Every configuration that init or SetConfig stores has a logging level. */
    ghost predicate Valid()
      reads this
    {
      Normal(config)
    }

    /** Package initialisation: SetConfig(DefaultConfig()). */
    constructor ()
      ensures Valid()
      ensures config == DefaultConfig()
    {
      config := DefaultConfig();
      new;
      SetConfig(DefaultConfig());
    }

    function GetConfig(): (r: Config)
      reads this
      ensures Valid() ==> Normal(r)
    {
      config
    }

    /** Stores the argument, with an unset logging level replaced by INFO. */
    method SetConfig(newConfig: Config)
      modifies this
      ensures Valid()
      ensures config == Normalized(newConfig)
      ensures Normal(newConfig) ==> GetConfig() == newConfig
    {
      var c := newConfig;
      if c.loggingLevel == 0 {
        c := c.(loggingLevel := INFO);
      }
      config := c;
    }
  }
}
