/**
 * The live configuration: a dictionary of string settings, loaded once at
 * start-up and merged with whatever a `/save_config` request posts.
 */
module Settings {
  import opened Wrappers
  import opened Web

  /** The seven settings the service knows. */
  const SettingNames: set<string> := {"tmdb_api_key", "tvdb_api_key", "fanart_api_key", "movies_source",
                                      "shows_source", "backdrop_limit", "preferred_source"}

  /** The configuration used, and written out, when no configuration file exists yet. */
  function DefaultConfig(): (c: map<string, string>)
    ensures c.Keys == SettingNames
    ensures c["tmdb_api_key"] == c["tvdb_api_key"] == c["fanart_api_key"] == ""
    ensures c["movies_source"] == c["shows_source"] == ""
    ensures c["backdrop_limit"] == "All" && c["preferred_source"] == "TMDB"
  {
    map["tmdb_api_key" := "", "tvdb_api_key" := "", "fanart_api_key" := "",
        "movies_source" := "", "shows_source" := "",
        "backdrop_limit" := "All", "preferred_source" := "TMDB"]
  }

  /**
   * `config.update(data)`: every posted key takes its posted value, every
   * other key keeps its value, and no key is lost.
   */
  function Merged(config: map<string, string>, data: map<string, string>): (r: map<string, string>)
    ensures r.Keys == config.Keys + data.Keys
    ensures forall k :: k in data ==> r[k] == data[k]
    ensures forall k :: k in config && k !in data ==> r[k] == config[k]
  {
    config + data
  }

  /** Posting the same data twice leaves the configuration as posting it once. */
  lemma MergeIdempotent(config: map<string, string>, data: map<string, string>)
    ensures Merged(Merged(config, data), data) == Merged(config, data)
  {
  }

  /** Later posts win: two posts in a row act as one post of both, the second taking precedence. */
  lemma MergeSequential(config: map<string, string>, first: map<string, string>, second: map<string, string>)
    ensures Merged(Merged(config, first), second) == Merged(config, Merged(first, second))
  {
  }

  /** The process-wide `config` dictionary. */
  class ConfigStore {
    var settings: map<string, string>

    /** Start-up: the stored configuration when the file exists, the defaults otherwise. */
    constructor (stored: Option<map<string, string>>)
      ensures stored.Some? ==> settings == stored.value
      ensures stored.None? ==> settings == DefaultConfig()
    {
      settings := stored.GetOr(DefaultConfig());
    }

    /** `/save_config`: merges the posted dictionary over the live configuration. */
    method SaveConfig(data: map<string, string>) returns (reply: Reply)
      modifies this
      ensures settings == Merged(old(settings), data)
      ensures forall k :: k in data ==> settings[k] == data[k]
      ensures forall k :: k in old(settings) && k !in data ==> settings[k] == old(settings)[k]
      ensures reply == Message("Configuration updated successfully!") && reply.Status() == 200
    {
      settings := settings + data;
      reply := Message("Configuration updated successfully!");
    }
  }
}
