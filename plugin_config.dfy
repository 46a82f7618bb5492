/**
 * The `conf` object every plugin worker receives: the proxy's global configuration without the
 * raw password, with the password hash in its place, and without anything that is neither a string
 * nor a number.
 */
module PluginConfig {

  /** A configuration value, by JavaScript type. */
  datatype ConfigValue = Str(s: string) | Num(n: real) | OtherValue

  predicate Shareable(v: ConfigValue) {
    v.Str? || v.Num?
  }

  /** The loop over the configuration's keys (lines 53-63). */
  method BuildConf(config: map<string, ConfigValue>) returns (conf: map<string, ConfigValue>)
    ensures "password" in conf <==> "passwordHash" in config
    ensures "password" in conf ==> conf["password"] == config["passwordHash"]
    ensures "passwordHash" !in conf
    ensures forall k :: k != "password" && k != "passwordHash" ==>
              (k in conf <==> k in config && Shareable(config[k]))
    ensures forall k :: k in conf && k != "password" ==> conf[k] == config[k]
  {
    conf := map[];
    var rest := config.Keys;
    while rest != {}
      invariant rest <= config.Keys
      invariant "password" in conf <==> "passwordHash" in config && "passwordHash" !in rest
      invariant "password" in conf ==> conf["password"] == config["passwordHash"]
      invariant "passwordHash" !in conf
      invariant forall k :: k != "password" && k != "passwordHash" ==>
                  (k in conf <==> k in config && k !in rest && Shareable(config[k]))
      invariant forall k :: k in conf && k != "password" ==> conf[k] == config[k]
      decreases rest
    {
      var name :| name in rest;
      rest := rest - {name};
      if name == "password" {
        continue;
      }
      var value := config[name];
      if name == "passwordHash" {
        conf := conf["password" := value];
      } else if value.Str? || value.Num? {
        conf := conf[name := value];
      }
    }
  }
}
