/**
  The client of client/client.go: an endpoint URL and a configuration of
  default request headers and default query parameters.
 */
module Clients {
  import opened Wrappers

  /** A Go map[string]string. Where the source can hold a nil map, the model uses Option<StringMap>. */
  type StringMap = map<string, string>

  /** Reading a nil map in Go behaves like reading an empty one. */
  function OrEmpty(m: Option<StringMap>): StringMap {
    if m.Some? then m.value else map[]
  }

  /** Config: default headers and default query; None is a nil map (the zero value). */
  datatype Config = Config(headers: Option<StringMap>, query: Option<StringMap>)

  /** The zero value &Config{}: both maps nil. */
  const EmptyConfig := Config(None, None)

  /** Client: config None is a nil *Config. */
  datatype Client = Client(endpoint: string, config: Option<Config>)

  /** What the resource accessor dereferences: the client's config pointer is not nil. */
  predicate Ready(c: Client) {
    c.config.Some?
  }

  /**
    New(uri, cfg...): the variadic config argument is the sequence cfg, each
    element a possibly nil *Config.
   */
  function New(uri: string, cfg: seq<Option<Config>>): (c: Client)
    ensures c.endpoint == uri
    ensures Ready(c)
    ensures |cfg| > 0 && cfg[0].Some? ==> c.config == cfg[0]
    ensures |cfg| == 0 || cfg[0].None? ==> c.config.value.headers.None? && c.config.value.query.None?
  {
    var config := if |cfg| > 0 && cfg[0].Some? then cfg[0].value else EmptyConfig;
    Client(uri, Some(config))
  }

  /** A nil first config is replaced by an empty one: New(uri, nil) is New(uri). */
  lemma NewNilIsNewWithout(uri: string)
    ensures New(uri, [None]) == New(uri, [])
  {
  }

  /** Only the first config argument is looked at. */
  lemma NewIgnoresFurtherConfigs(uri: string, cfg: Config, rest: seq<Option<Config>>)
    ensures New(uri, [Some(cfg)] + rest) == New(uri, [Some(cfg)])
  {
  }
}
